/**
 * What travels between the page and the `/api/chat` handler: the request
 * body the handler reads with `req.json()` and the response it builds with
 * `NextResponse.json`.
 */
module Protocol {
  import opened Wrappers
  import opened JsonValue

  /** One element of the chat-style `messages` array. */
  datatype Message = Message(role: string, content: string)

  /** A request body, resolved once at the boundary. */
  datatype Body =
    | Chat(messages: seq<Message>)  // `body.messages` is an array
    | Other(value: Json)            // any other object; serialised whole

  /** The JSON object of a response; a field is `None` when the object lacks it. */
  datatype Envelope = Envelope(suggestions: Option<Json>, raw: Option<string>, error: Option<string>)

  /** An HTTP response: its status code and its JSON body. */
  datatype Response = Response(status: nat, body: Envelope)

  /**
   * A body in resolved form: an object whose `messages` field is an array
   * is read as a `Chat`, so an `Other` body is never such an object.
   */
  predicate Resolved(b: Body) {
    b.Other? && b.value.Obj? ==>
      forall i :: 0 <= i < |b.value.fields| ==>
        !(b.value.fields[i].0 == "messages" && b.value.fields[i].1.Arr?)
  }

  /** JavaScript truthiness of an optional string field: present and not empty. */
  predicate Truthy(v: Option<string>) {
    v.Some? && v.value != ""
  }
}
