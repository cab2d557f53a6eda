/** The POST handler of the transform route: read the request body, trim and
    validate the input, build the instruction, make one call to the model
    client and shape its outcome into a JSON response. The model client is a
    function parameter, so a call is modelled by the request it would receive. */
module Route {
  import opened Wrappers
  import opened JsText
  import opened Instructions

  /** The fixed model identifier sent with every client call. */
  const ModelId: string := "gpt-5-mini"

  /** The `input` property of the parsed body. A non-string value is only
      distinguished by its truthiness: a falsy one (`null`, `false`, `0`)
      counts as no input, and calling `trim` on a truthy one throws. */
  datatype InputField = Missing | Text(text: string) | NonText(truthy: bool)

  /** The outcome of `req.json()` and the destructuring after it: a body that
      is not JSON, a JSON `null` (destructuring it throws), or the four
      properties the handler reads. A JSON value that is neither an object
      nor `null` destructures to `Fields(Missing, None, None, None)`. */
  datatype RequestBody =
    | Malformed
    | NullBody
    | Fields(input: InputField, mode: Option<string>, tone: Option<string>, target: Option<string>)

  /** The argument of `client.responses.create`. */
  datatype ModelRequest = ModelRequest(model: string, instructions: string, input: string)

  /** What the client call gives back: a response whose `output_text` may be
      absent, or an exception whose content is `cause`. */
  datatype ClientOutcome = Completed(outputText: Option<string>) | Failed(cause: string)

  /** A JSON response body: `{output}` or `{error}`, the latter with an
      optional `status` property inside the body itself. */
  datatype Body = OutputBody(output: string) | ErrorBody(error: string, status: Option<int>)

  /** A response: its JSON body and its transport status. */
  datatype Response = Response(body: Body, status: int)

  /** One run of the handler: the client request it made, if any, and the
      response it returned. */
  datatype Exchange = Exchange(sent: Option<ModelRequest>, response: Response)

  /** The transport status `Response.json` uses when none is given. */
  const DefaultStatus: int := 200

  /** The validation failure response. */
  const TextRequired: Response := Response(ErrorBody("Text required", None), 400)

  /** The response of the catch block: `status: 500` sits inside the body and
      the transport status stays the default. */
  const ServerError: Response := Response(ErrorBody("Server error", Some(500)), DefaultStatus)

  /** `input ? input.trim() : ""`; `None` when `trim` throws. */
  function CleanInput(input: InputField): (r: Option<string>)
    ensures input.Text? ==> r == Some(Trim(input.text))
    ensures input.NonText? ==> (r.None? <==> input.truthy)
    ensures input.Missing? || input == NonText(false) ==> r == Some("")
  {
    match input
    case Missing => Some("")
    case Text(s) => if s == "" then Some("") else Some(Trim(s))
    case NonText(truthy) => if truthy then None else Some("")
  }

  /** The request body's input counts as given: it is a string that does not
      trim to the empty string. */
  predicate HasText(body: RequestBody)
  {
    body.Fields? && body.input.Text? && Trim(body.input.text) != ""
  }

  /** The request the client receives for a body with text: the fixed model,
      the instruction built from (mode, target, tone), the trimmed input. */
  function RequestFor(body: RequestBody): (q: ModelRequest)
    requires HasText(body)
    ensures q.model == "gpt-5-mini"
    ensures q.instructions == BuildInstructions(body.mode, body.target, body.tone)
    ensures Parse(q.instructions) == Some(IntentOf(body.mode, body.target, body.tone))
    ensures IsTrimOf(body.input.text, q.input) && q.input != "" && Trimmed(q.input)
  {
    BuildRoundTrip(body.mode, body.target, body.tone);
    ModelRequest(ModelId, BuildInstructions(body.mode, body.target, body.tone), Trim(body.input.text))
  }

  /** `aiResponse.output_text || ""`. */
  function OutputOrEmpty(outputText: Option<string>): (s: string)
    ensures Truthy(outputText) ==> s == outputText.value
    ensures !Truthy(outputText) ==> s == ""
  {
    match outputText
    case None => ""
    case Some(t) => if t == "" then "" else t
  }

  /** `POST(req)`. Every exception in the try block (body parsing,
      destructuring `null`, `trim` on a non-string, the client call) ends in
      the one catch-block response. */
  function Handle(body: RequestBody, client: ModelRequest -> ClientOutcome): (x: Exchange)
    // a client call is made exactly when the input has text
    ensures x.sent.Some? <==> HasText(body)
    // and it carries the fixed model, the built instruction and the trimmed input
    ensures x.sent.Some? ==> x.sent.value == RequestFor(body)
    // with a string or missing input, no call means the input was blank
    ensures body.Fields? && !body.input.NonText? && x.sent.None? ==> x.response == TextRequired
    // a call's outcome decides the response
    ensures x.sent.Some? && client(x.sent.value).Completed? ==>
      x.response == Response(OutputBody(OutputOrEmpty(client(x.sent.value).outputText)), DefaultStatus)
    ensures x.sent.Some? && client(x.sent.value).Failed? ==> x.response == ServerError
    // every error response is one of the two fixed ones
    ensures x.response.body.ErrorBody? ==> x.response == TextRequired || x.response == ServerError
  {
    match body
    case Malformed => Exchange(None, ServerError)
    case NullBody => Exchange(None, ServerError)
    case Fields(input, mode, tone, target) =>
      match CleanInput(input)
      case None => Exchange(None, ServerError)
      case Some(cleaned) =>
        if cleaned == "" then
          Exchange(None, TextRequired)
        else
          var request := ModelRequest(ModelId, BuildInstructions(mode, target, tone), cleaned);
          match client(request)
          case Completed(outputText) =>
            Exchange(Some(request), Response(OutputBody(OutputOrEmpty(outputText)), DefaultStatus))
          case Failed(_) =>
            Exchange(Some(request), ServerError)
  }

  /** Blank input is rejected with "Text required" and status 400 before the
      client is called: missing, falsy, or trimming to nothing. */
  lemma BlankInputRejected(body: RequestBody, client: ModelRequest -> ClientOutcome)
    requires body.Fields?
    requires body.input.Missing? || body.input == NonText(false)
          || (body.input.Text? && AllSpace(body.input.text))
    ensures Handle(body, client) == Exchange(None, TextRequired)
  {
    if body.input.Text? {
      TrimEmptyIffBlank(body.input.text);
    }
  }

  /** Whether a call is made, and what it carries, does not depend on the
      client: the request is fixed before the client is consulted. */
  lemma CallIndependentOfClient(body: RequestBody, c1: ModelRequest -> ClientOutcome, c2: ModelRequest -> ClientOutcome)
    ensures Handle(body, c1).sent == Handle(body, c2).sent
    ensures Handle(body, c1).sent.None? ==> Handle(body, c1).response == Handle(body, c2).response
  {
  }

  /** The response equals the catch-block body whatever the exception says. */
  lemma FailureHidesCause(body: RequestBody, c1: ModelRequest -> ClientOutcome, c2: ModelRequest -> ClientOutcome)
    requires HasText(body)
    requires c1(RequestFor(body)).Failed? && c2(RequestFor(body)).Failed?
    ensures Handle(body, c1).response == Handle(body, c2).response == ServerError
  {
  }

  /** Malformed bodies, a `null` body and a truthy non-string input all end in
      the catch block without a client call. */
  lemma ThrownBeforeCall(body: RequestBody, client: ModelRequest -> ClientOutcome)
    requires body.Malformed? || body.NullBody? || (body.Fields? && body.input == NonText(true))
    ensures Handle(body, client) == Exchange(None, ServerError)
  {
  }

  /** A rejected request is answered with status 400 and every other
      response with the default status 200; the only status inside a body is
      500, and it comes with transport status 200. A success body is only
      ever produced after a client call. */
  lemma StatusClassification(body: RequestBody, client: ModelRequest -> ClientOutcome)
    ensures Handle(body, client).response.status == 400 <==> Handle(body, client).response == TextRequired
    ensures Handle(body, client).response.status != 400 ==> Handle(body, client).response.status == 200
    ensures Handle(body, client).response.body.OutputBody? ==> Handle(body, client).sent.Some?
    ensures Handle(body, client).response.body.ErrorBody? && Handle(body, client).response.body.status.Some? ==>
      Handle(body, client).response.body.status == Some(500) && Handle(body, client).response.status == 200
  {
  }

  /** A summarize request with padded input: the client receives the input
      without its padding and the summarize instruction. */
  lemma PaddedSummarizeScenario(client: ModelRequest -> ClientOutcome)
    ensures Handle(Fields(Text("  Hello world  "), Some("summarize"), None, None), client).sent
         == Some(ModelRequest("gpt-5-mini", Base + SummarizeClause, "Hello world"))
  {
    var s := "  Hello world  ";
    assert s[2..13] == "Hello world" && s[..2] == "  " && s[13..] == "  ";
    assert IsTrimOf(s, "Hello world");
    TrimUnique(s, "Hello world");
  }

  /** A rewrite request with tone "professional" makes one call whose
      instruction asks for the professional tone. */
  lemma ProfessionalRewriteScenario(client: ModelRequest -> ClientOutcome)
    ensures Handle(Fields(Text("Test"), Some("rewrite"), Some("professional"), None), client).sent.Some?
    ensures Parse(Handle(Fields(Text("Test"), Some("rewrite"), Some("professional"), None), client).sent.value.instructions)
         == Some(Rewrite("professional"))
  {
    assert LeadingSpace("Test") == 0 && TrailingSpace("Test") == 0;
  }
}
