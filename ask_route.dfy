/**
 * The ask route (src/app/api/ask/route.ts) as a decision function: from the
 * environment's API key, the posted body and the upstream model's answer to
 * the HTTP response the route sends, together with the upstream request it
 * makes, if any.  The network call is an input: whatever the upstream did.
 */
module AskRoute {
  import opened Wrappers
  import opened Text

  /** A value thrown inside the handler: an `Error` with its message, or anything else. */
  datatype Thrown = ErrorThrown(message: string) | OtherThrown

  /** `err instanceof Error ? err.message : "Unknown error"`. */
  function ThrownMessage(t: Thrown): string {
    match t
    case ErrorThrown(m) => m
    case OtherThrown => "Unknown error"
  }

  /**
   * One destructured body field: missing or `null`, a string, or some other
   * value, whose `trim` call throws the `TypeError` carried here.
   */
  datatype Field = Missing | Text(value: string) | NotText(typeError: string)

  /** The posted JSON: unreadable (the parse or the destructuring threw), or its two fields. */
  datatype Body = Unreadable(thrown: Thrown) | Parsed(question: Field, systemContext: Field)

  /** The upstream reply's JSON: unreadable, or the first candidate's first part text and `error.message`. */
  datatype ReplyJson = BadJson(thrown: Thrown) | ReplyFields(text: Option<string>, errorMessage: Option<string>)

  /** What the upstream `fetch` did. */
  datatype Upstream = FetchThrew(thrown: Thrown) | Replied(status: int, json: ReplyJson)

  /** The request the route sends upstream: the system instruction and the user question, as posted. */
  datatype UpstreamRequest = UpstreamRequest(systemContext: string, question: string)

  datatype Payload = ErrorPayload(error: string) | TextPayload(text: string)

  datatype Response = Response(status: int, payload: Payload)

  datatype Outcome = Outcome(response: Response, sent: Option<UpstreamRequest>)

  const MissingKey: string := "GEMINI_API_KEY is not set"
  const MissingInput: string := "Missing question or context"
  const EmptyResponse: string := "Empty response from Gemini"

  /** `res.ok`. */
  predicate Ok(status: int) {
    200 <= status <= 299
  }

  /** How `!field?.trim()` evaluates: blank, present, or the call throws. */
  datatype Check = Blank | Present | Throws(message: string)

  function CheckField(f: Field): (r: Check)
    ensures r.Blank? <==> f.Missing? || (f.Text? && IsBlank(f.value))
    ensures r.Throws? <==> f.NotText?
  {
    TrimEmptyIffBlank(if f.Text? then f.value else []);
    match f
    case Missing => Blank
    case Text(s) => if Trim(s) == [] then Blank else Present
    case NotText(m) => Throws(m)
  }

  /** The response built from the upstream answer, from line 32 of the route on. */
  function Answer(up: Upstream): Response {
    match up
    case FetchThrew(t) => Response(500, ErrorPayload(ThrownMessage(t)))
    case Replied(status, json) =>
      match json
      case BadJson(t) => Response(500, ErrorPayload(ThrownMessage(t)))
      case ReplyFields(text, errorMessage) =>
        var t := text.GetOr([]);
        if !Ok(status) || t == [] then
          Response(if Ok(status) then 500 else status, ErrorPayload(errorMessage.GetOr(EmptyResponse)))
        else Response(200, TextPayload(t))
  }

  /** `POST /api/ask`. */
  function Post(apiKey: Option<string>, body: Body, up: Upstream): Outcome {
    if apiKey.None? || apiKey.value == [] then Outcome(Response(500, ErrorPayload(MissingKey)), None)
    else match body
      case Unreadable(t) => Outcome(Response(500, ErrorPayload(ThrownMessage(t))), None)
      case Parsed(q, c) =>
        match CheckField(q)
        case Throws(m) => Outcome(Response(500, ErrorPayload(m)), None)
        case Blank => Outcome(Response(400, ErrorPayload(MissingInput)), None)
        case Present =>
          match CheckField(c)
          case Throws(m) => Outcome(Response(500, ErrorPayload(m)), None)
          case Blank => Outcome(Response(400, ErrorPayload(MissingInput)), None)
          case Present => Outcome(Answer(up), Some(UpstreamRequest(c.value, q.value)))
  }

  /** Without a key the route answers 500 before reading the body, and calls nothing upstream. */
  lemma MissingKeyFails(apiKey: Option<string>, body: Body, up: Upstream)
    requires apiKey.None? || apiKey == Some([])
    ensures Post(apiKey, body, up) == Outcome(Response(500, ErrorPayload(MissingKey)), None)
  {
  }

  /**
   * A blank question, or a present question with a blank context, gets 400
   * "Missing question or context" and no upstream call.
   */
  lemma BlankInputRejected(apiKey: string, q: Field, c: Field, up: Upstream)
    requires apiKey != []
    requires q.Missing? || (q.Text? && IsBlank(q.value))
      || (q.Text? && !IsBlank(q.value) && (c.Missing? || (c.Text? && IsBlank(c.value))))
    ensures Post(Some(apiKey), Parsed(q, c), up) == Outcome(Response(400, ErrorPayload(MissingInput)), None)
  {
    var _ := CheckField(q);
    var _ := CheckField(c);
  }

  /** The route calls upstream exactly when the key is set and both fields are non-blank strings, and sends them unchanged. */
  lemma UpstreamCalledIffValid(apiKey: Option<string>, body: Body, up: Upstream)
    ensures Post(apiKey, body, up).sent.Some? <==>
      && apiKey.Some? && apiKey.value != [] && body.Parsed?
      && body.question.Text? && !IsBlank(body.question.value)
      && body.systemContext.Text? && !IsBlank(body.systemContext.value)
    ensures Post(apiKey, body, up).sent.Some? ==>
      Post(apiKey, body, up).sent.value == UpstreamRequest(body.systemContext.value, body.question.value)
  {
    if body.Parsed? {
      var _ := CheckField(body.question);
      var _ := CheckField(body.systemContext);
    }
  }

  /**
   * Once the upstream was asked: success is exactly a 2xx reply with non-empty
   * text, and returns that text; a non-2xx reply keeps its status; a 2xx reply
   * without text is a 500; the message falls back to "Empty response from Gemini".
   */
  lemma AnswerSpec(up: Upstream)
    ensures Answer(up).payload.TextPayload? <==>
      up.Replied? && Ok(up.status) && up.json.ReplyFields? && up.json.text.Some? && up.json.text.value != []
    ensures Answer(up).payload.TextPayload? ==>
      Answer(up) == Response(200, TextPayload(up.json.text.value))
    ensures up.Replied? && !Ok(up.status) && up.json.ReplyFields? ==>
      Answer(up).status == up.status
    ensures up.Replied? && Ok(up.status) && up.json.ReplyFields? && up.json.text.GetOr([]) == [] ==>
      Answer(up).status == 500
    ensures up.Replied? && up.json.ReplyFields? && Answer(up).payload.ErrorPayload? ==>
      Answer(up).payload.error ==
        (if up.json.errorMessage.Some? then up.json.errorMessage.value else EmptyResponse)
  {
  }

  /** A thrown fetch or an unreadable reply is reported as 500 with the thrown message. */
  lemma ThrownAnswer(up: Upstream)
    requires up.FetchThrew? || up.json.BadJson?
    ensures Answer(up) == Response(500, ErrorPayload(ThrownMessage(
      if up.FetchThrew? then up.thrown else up.json.thrown)))
  {
  }

  /** The route answers 200 exactly when it returns upstream text, which is never empty; every other answer carries an error. */
  lemma StatusMatchesPayload(apiKey: Option<string>, body: Body, up: Upstream)
    ensures var r := Post(apiKey, body, up).response;
      && (r.status == 200 <==> r.payload.TextPayload?)
      && (r.payload.TextPayload? ==> r.payload.text != [] && Post(apiKey, body, up).sent.Some?)
  {
  }
}
