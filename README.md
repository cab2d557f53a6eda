# AI text transformer: transform route

This project models the server side of a small text-transformation app. A
POST request carries a block of text and a mode (`summarize`, `rewrite` or
`translate`), with an optional tone and target language. The handler
validates and trims the text, builds a natural-language instruction for a
text-generation model, sends the text and the instruction to the model
client, and shapes the outcome into a JSON response.

The handler keeps no state between requests and is straight-line code with
one try/catch. Its one outside call, to the model client, becomes a function
parameter, so the whole route is modelled as functions over datatypes.

- `wrappers.dfy`, module `Wrappers`: `Option`. JavaScript `undefined` is `None`.
- `js_text.dfy`, module `JsText`: the JavaScript string behaviour the handler
  relies on.
  - `Trim` is `String.prototype.trim`. It strips the ECMAScript WhiteSpace and
    LineTerminator code points from both ends.
  - `IsTrimOf` is an independent reference meaning of trimming. `TrimUnique`
    proves that it picks out exactly `Trim`'s result.
  - `Truthy` and `Interpolate` cover JavaScript truthiness and template
    literals. `${undefined}` renders as `"undefined"`.
- `instructions.dfy`, module `Instructions`: `buildInstructions`.
  - The literal strings are the code's own, including the spelling "consise"
    and the missing final period of the summarize clause.
  - `IntentOf` is the mode dispatch on its own.
  - `Parse` reads an instruction back. The round trip `BuildRoundTrip` shows
    that the instruction carries exactly the chosen clause and the tone or
    target inserted verbatim.
- `route.dfy`, module `Route`: the `POST` handler, as the function `Handle`.
  - It takes the parsed request body and the model client. The client is a
    function from the request it receives to an outcome: a completed response
    with an optional `output_text`, or a failure carrying some cause.
  - It returns an `Exchange`: the client request made, if any, and the
    response.
  - The response is a JSON body plus a transport status.

The model reproduces the code's literal text and its quirks:
- The summarize clause reads "... into maximum of 5 bullet points", with no
  article and no final period. The preamble spells "consise". The rewrite
  clause ends "tone. You should preserve the meaning."
- The catch block puts `status: 500` inside the JSON body and passes no
  response option, so the transport status is `Response.json`'s default, 200.
  `ServerError` reproduces this, and `StatusClassification` states it.
- An `input` that is a truthy non-string makes `trim` throw, so the request
  takes the catch path. A falsy non-string (`null`, `false`, `0`) counts as no
  input and gets the "Text required" 400 response.

## Model

| member | source | states |
|---|---|---|
| JsText.IsWhiteSpace | src/app/route.js:21 | the characters `trim` strips: the ECMAScript WhiteSpace code points (tab, vertical tab, form feed, space, no-break space, zero-width no-break space, and the space separators U+1680, U+2000-U+200A, U+202F, U+205F, U+3000) and the LineTerminator code points (line feed, carriage return, U+2028, U+2029) |
| JsText.Truthy | src/app/route.js:10 | JavaScript truthiness of an optional string, as used for `tone` (line 10), `input` (line 21) and `output_text` (line 35): `undefined` and `""` are falsy, every other string is truthy |
| JsText.LeadingSpace | src/app/route.js:21 | the count of leading characters stripped: all of them are whitespace, and the next character is not |
| JsText.TrailingSpace | src/app/route.js:21 | the count of trailing characters stripped: all of them are whitespace, and the character before them is not |
| JsText.Trim | src/app/route.js:21 | `input.trim()` is a contiguous slice `s[i..j]` of the input. Everything cut off on either side is whitespace, and the result neither starts nor ends with whitespace |
| JsText.TrimUnique | src/app/route.js:21 | the reference meaning of trimming (slice, whitespace cut away, trimmed ends) holds for exactly one string, `Trim`'s result |
| JsText.TrimIdempotent | src/app/route.js:21 | trimming an already trimmed string changes nothing |
| JsText.TrimEmptyIffBlank | src/app/route.js:21-23 | the input trims to `""` exactly when every character is whitespace |
| JsText.Interpolate | src/app/route.js:13 | `${target}` renders a string as itself and `undefined` as "undefined" |
| Instructions.Base | src/app/route.js:4-13 | the literal texts of the builder, character for character: the preamble `base` (line 4), the summarize clause (line 7), the text around the tone (line 10) and around the target (line 13); shared by `SummarizeClause`, `RewriteOpen`, `RewriteClose`, `TranslateOpen`, `TranslateClose` and `Route.ModelId` ("gpt-5-mini", line 30) |
| Instructions.ToneOrDefault | src/app/route.js:10 | `tone ? tone : "simple"`: a truthy tone is used as given, and an absent or empty one becomes "simple" |
| Instructions.IntentOf | src/app/route.js:6-14 | summarize exactly when mode is "summarize", rewrite (with the tone or its default) exactly when mode is "rewrite", and translate (with the rendered target) for every other mode, absent included |
| Instructions.BuildInstructions | src/app/route.js:3-15 | every instruction starts with the fixed preamble `base` and is longer than it |
| Instructions.ParseSummarize | src/app/route.js:7 | the summarize instruction reads back as the summarize intent |
| Instructions.ParseRewrite | src/app/route.js:10 | a rewrite instruction reads back as rewrite with its tone exactly as inserted |
| Instructions.ParseTranslate | src/app/route.js:13 | a translate instruction reads back as translate with its target exactly as inserted |
| Instructions.ParseExact | src/app/route.js:6-14 | a text that reads back as an intent is exactly the preamble plus that intent's clause, so reading back is injective |
| Instructions.BuildRoundTrip | src/app/route.js:3-15 | reading back any built instruction gives the intent the mode dispatch chose: the clause, and the tone or target, are recoverable from the text |
| Instructions.BuildIsRenderedIntent | src/app/route.js:3-15 | every instruction is exactly the preamble followed by the clause of the intent the mode dispatch chose |
| Instructions.BuildSameIffSameIntent | src/app/route.js:3-15 | two argument triples give the same instruction if and only if they select the same intent. The builder identifies only what its defaults identify |
| Instructions.BuildSummarize | src/app/route.js:6-7 | mode "summarize" yields exactly `base` followed by the summarize clause, whatever the target and tone |
| Instructions.BuildRewriteDefaultTone | src/app/route.js:9-10 | in rewrite mode an absent or empty tone gives the same instruction as tone "simple", asking for "a simple tone" |
| Instructions.BuildRewriteTone | src/app/route.js:9-10 | in rewrite mode a non-empty tone is inserted verbatim as "a <tone> tone" |
| Instructions.BuildTranslateFallback | src/app/route.js:12-13 | every mode other than "summarize" and "rewrite" gives the translate instruction, with the target verbatim, identical to mode "translate" |
| Route.TextRequired | src/app/route.js:24 | the validation response: body `{error: "Text required"}` and transport status 400 |
| Route.ServerError | src/app/route.js:38-41 | the catch-block response: body `{error: "Server error", status: 500}` with `status` as a body property, and transport status 200, the default of `Response.json` when no options are passed |
| Route.HasText | src/app/route.js:21-23 | the input passes the `!cleanedInput` test: it is a string that does not trim to `""` |
| Route.CleanInput | src/app/route.js:21 | a string input is trimmed. A missing or falsy input becomes `""`. `trim` on a truthy non-string throws |
| Route.RequestFor | src/app/route.js:27-33 | the client request uses model "gpt-5-mini" and exactly the instruction `buildInstructions(mode, target, tone)`, in that argument order, which reads back as the dispatched intent. Its input is the trimmed text: non-empty and without whitespace at either end |
| Route.OutputOrEmpty | src/app/route.js:35 | a non-empty text is passed on, and an absent or empty one becomes `""` |
| Route.Handle | src/app/route.js:17-43 | a client call is made exactly when the input is a string that does not trim to `""`, and it carries the trimmed text. A missing or blank input gets "Text required" with 400 and no call. A completed call gives `{output}` with status 200, and a failed call gives the server-error response. Every error response is one of the two fixed ones |
| Route.BlankInputRejected | src/app/route.js:21-25 | input that is missing, falsy or all whitespace gets `{error: "Text required"}` with status 400, and no client call is made |
| Route.CallIndependentOfClient | src/app/route.js:21-33 | whether the client is called, and with what, is decided before the client is consulted. Without a call the response does not depend on the client |
| Route.FailureHidesCause | src/app/route.js:37-41 | any two client failures give the same response, the server-error one, whatever their causes |
| Route.ThrownBeforeCall | src/app/route.js:18-41 | a body that fails to parse, a `null` body and a truthy non-string input all give the server-error response without a client call |
| Route.StatusClassification | src/app/route.js:24-41 | transport status 400 occurs exactly for "Text required", and every other response has status 200. A status inside a body is always 500 and comes with transport status 200. An `{output}` body only follows a client call |
| Route.PaddedSummarizeScenario | src/app/route.js:21-33 | input "  Hello world  " in summarize mode sends "Hello world" with the summarize instruction to "gpt-5-mini" |
| Route.ProfessionalRewriteScenario | src/app/route.js:9-33 | input "Test" in rewrite mode with tone "professional" makes a call whose instruction asks for the professional tone |

## Left out

- The React page (`src/page.js`) is not part of this model. It is form state, layout, `fetch` and clipboard handling.
- The OpenAI SDK, the construction of its client and the `OPENAI_API_KEY` environment variable are not modelled. The client is a function parameter instead.
- If the client constructor throws (for example with a missing key), the code calls nothing, and the model counts this as a failed call. The response is the same server-error body either way.
- Real JSON parsing and serialisation are not modelled. The request body is given already parsed (`RequestBody`), or as a parse failure, and the response is a datatype.
- A JSON body that is neither an object nor `null` destructures to all properties undefined. It is represented as `Fields(Missing, None, None, None)`.
- `async`/`await` is not modelled. The handler is treated as sequential, and a client call that never resolves is outside the model.
- `mode`, `tone` and `target` are modelled only as strings or absent. For a non-string `mode` nothing is lost: it fails both strict comparisons and gives the translate clause, as an absent mode does. Neither is anything lost for a falsy non-string `tone` (`null`, `false`, `0`): it gives "simple". A truthy non-string `tone` in rewrite mode and a non-string `target` in the translate clause go through JavaScript's string conversion, and that is not modelled. The conversion can throw (a target object whose `toString` is not callable), in which case `buildInstructions` throws, no call is made and the catch-block response is returned.
- A non-string `input` is represented only by its truthiness, which is all the handler looks at.
- Strings are sequences of Unicode scalar values, while JavaScript strings are UTF-16. Lone surrogates are not represented.
