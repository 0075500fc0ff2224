/**
 * The Gift Guru page: the form state, the prompt it composes, and the submit
 * state machine that sorts the handler's answer into suggestions or an error
 * message. The browser's `fetch` and `res.json()` are one abstract outcome.
 */
module GiftPage {
  import opened Wrappers
  import opened JsonValue
  import opened Protocol
  import opened Strings

  /** A form field's value: the text of an input, or the budget number. */
  datatype FieldValue = Text(text: string) | Num(n: int)

  /** `formData`: a JavaScript object, so `[name]: value` may set any key. */
  type FormData = map<string, FieldValue>

  const InitialForm: FormData := map[
    "target" := Text("伴侶 (Partner)"),
    "details" := Text(""),
    "budget" := Num(6000),
    "interests" := Text(""),
    "taboos" := Text("無")
  ]

  /**
   * `${formData[name]}`: a text field as it is, the budget in decimal (it
   * reads back as the number), "undefined" when the form lacks the field.
   */
  function Field(form: FormData, name: string): (r: string)
    ensures name !in form ==> r == "undefined"
    ensures name in form && form[name].Text? ==> r == form[name].text
    ensures name in form && form[name].Num? ==>
              r == IntToString(form[name].n) && IntValue(r) == Some(form[name].n)
  {
    if name !in form then "undefined"
    else match form[name]
      case Text(t) => t
      case Num(n) => IntToStringRoundTrip(n); IntToString(n)
  }

  /** The five values the prompt carries, in the order it carries them. */
  function PromptFields(form: FormData): seq<string> {
    [Field(form, "target"), Field(form, "details"), Field(form, "budget"),
     Field(form, "interests"), Field(form, "taboos")]
  }

  /**
   * The prompt the page composes from its form: target, details, budget,
   * interests and taboos appear in it in that order, without overlapping.
   */
  function PromptContent(form: FormData): (p: string)
    ensures AppearInOrder(p, PromptFields(form))
  {
    var f := PromptFields(form);
    FiveInOrder("\n        Target: ", "\n        Details: ", "\n        Budget: ",
                " TWD\n        Interests: ", "\n        Taboos: ", "\n      ", f);
    "\n        Target: " + f[0]
    + "\n        Details: " + f[1]
    + "\n        Budget: " + f[2]
    + " TWD\n        Interests: " + f[3]
    + "\n        Taboos: " + f[4]
    + "\n      "
  }

  /** The body the page posts: its last (only) message is the user's prompt. */
  function RequestBody(form: FormData): (b: Body)
    ensures Resolved(b)
    ensures b.Chat? && |b.messages| > 0
    ensures b.messages[|b.messages| - 1] == Message("user", PromptContent(form))
  {
    Chat([Message("user", PromptContent(form))])
  }

  /** What `fetch` and `res.json()` deliver: a rejection's message, or the response. */
  datatype FetchOutcome =
    | Rejected(message: string)
    | Responded(ok: bool, status: nat, data: Envelope)

  const StatusErrorPrefix: string := "伺服器回應錯誤: "
  const NoSuggestionsError: string := "AI 沒有回傳有效的建議，請再試一次"
  const GenericError: string := "發生錯誤，請稍後再試。"

  /** `data.suggestions` is a non-empty array. */
  predicate HasSuggestions(data: Envelope) {
    data.suggestions.Some? && data.suggestions.value.Arr? && |data.suggestions.value.items| > 0
  }

  /** What the page shows once a submission is over. */
  datatype Shown = Shown(suggestions: seq<Json>, error: string)

  /**
   * The message of the Error the try block throws for an outcome, or `None`
   * when it accepts suggestions.
   */
  function Thrown(o: FetchOutcome): (m: Option<string>)
    ensures m.None? <==> o.Responded? && o.ok && HasSuggestions(o.data)
  {
    match o
    case Rejected(message) => Some(message)
    case Responded(ok, status, data) =>
      if !ok then Some(if Truthy(data.error) then data.error.value else StatusErrorPrefix + NatToString(status))
      else if HasSuggestions(data) then None
      else if Truthy(data.error) then Some(data.error.value)
      else Some(NoSuggestionsError)
  }

  /**
   * The state a submission ends in: the accepted suggestions, or the thrown
   * message with its fallback. Exactly one of the two is non-empty.
   */
  function Outcome(o: FetchOutcome): (r: Shown)
    ensures |r.suggestions| > 0 <==> r.error == ""
  {
    match Thrown(o)
    case Some(m) => Shown([], if m != "" then m else GenericError)
    case None => Shown(o.data.suggestions.value.items, "")
  }

  class GiftGuruPage {
    var formData: FormData
    var loading: bool
    var suggestions: seq<Json>
    var error: string

    /** Suggestions and an error message are never shown together. */
    ghost predicate Valid()
      reads this
    {
      !(|suggestions| > 0 && error != "")
    }

    constructor ()
      ensures Valid()
      ensures formData == InitialForm && !loading && suggestions == [] && error == ""
    {
      formData := InitialForm;
      loading := false;
      suggestions := [];
      error := "";
    }

    /** A change event on a named input sets that one field of the form. */
    method HandleInputChange(name: string, value: string)
      requires Valid()
      modifies this
      ensures Valid()
      ensures formData == old(formData)[name := Text(value)]
      ensures forall other :: other != name && other in old(formData) ==>
                other in formData && formData[other] == old(formData)[other]
      ensures loading == old(loading) && suggestions == old(suggestions) && error == old(error)
    {
      formData := formData[name := Text(value)];
    }

    /** The start of a submission: loading, with the previous results cleared. */
    method BeginSubmit()
      modifies this
      ensures Valid()
      ensures loading && error == "" && suggestions == []
      ensures formData == old(formData)
    {
      loading := true;
      error := "";
      suggestions := [];
    }

    /** The `finally` block: loading ends, nothing else changes. */
    method FinishSubmit()
      requires Valid()
      modifies this
      ensures Valid()
      ensures !loading
      ensures formData == old(formData) && suggestions == old(suggestions) && error == old(error)
    {
      loading := false;
    }

    /**
     * A submission: posts the prompt through `fetch` and sorts the outcome
     * into suggestions or an error message. Returns the body it posted.
     */
    method HandleSubmit(fetch: Body -> FetchOutcome) returns (sent: Body)
      modifies this
      ensures sent == RequestBody(old(formData))
      ensures Shown(suggestions, error) == Outcome(fetch(sent))
      ensures !loading && formData == old(formData)
      ensures Valid()
    {
      BeginSubmit();
      sent := RequestBody(formData);
      var thrown: Option<string> := None;
      match fetch(sent) {
        case Rejected(message) =>
          thrown := Some(message);
        case Responded(ok, status, data) =>
          if !ok {
            thrown := Some(if Truthy(data.error) then data.error.value else StatusErrorPrefix + NatToString(status));
          } else if HasSuggestions(data) {
            suggestions := data.suggestions.value.items;
          } else if Truthy(data.error) {
            thrown := Some(data.error.value);
          } else {
            thrown := Some(NoSuggestionsError);
          }
      }
      if thrown.Some? {
        error := if thrown.value != "" then thrown.value else GenericError;
      }
      FinishSubmit();
    }
  }

  // ----- Sorting the outcome of a submission -----

  /** A rejected request or unreadable response shows its message, or the generic fallback. */
  lemma OutcomeOnRejection(message: string)
    ensures Outcome(Rejected(message)) == Shown([], if message != "" then message else GenericError)
  {
  }

  /** A non-ok status shows the handler's error, or a message naming the status; no suggestions. */
  lemma OutcomeOnErrorStatus(status: nat, data: Envelope)
    ensures var shown := Outcome(Responded(false, status, data));
            shown.suggestions == []
            && shown.error == if Truthy(data.error) then data.error.value
                              else StatusErrorPrefix + NatToString(status)
  {
  }

  /** An ok response with a non-empty `suggestions` array shows that array and no error. */
  lemma OutcomeOnSuggestions(status: nat, data: Envelope)
    requires HasSuggestions(data)
    ensures Outcome(Responded(true, status, data)) == Shown(data.suggestions.value.items, "")
  {
  }

  /** An ok response without suggestions shows the handler's error, or the fixed message. */
  lemma OutcomeOnNoSuggestions(status: nat, data: Envelope)
    requires !HasSuggestions(data)
    ensures Outcome(Responded(true, status, data))
            == Shown([], if Truthy(data.error) then data.error.value else NoSuggestionsError)
  {
  }
}
