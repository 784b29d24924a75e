/**
 * The `POST /api/chat` handler (app/api/chat/route.ts): validate the history,
 * project it to (role, content), forward it to the completion service and
 * wrap the answer in a JSON envelope with a status code.
 */
module ChatRoute {
  import opened Wrappers
  import opened ChatData

  /** The parsed request body; Malformed when `req.json()` throws. */
  datatype RequestBody = Malformed | Body(messages: Option<seq<Message>>)

  /** What the completion service is sent for each message. */
  datatype CompletionMessage = CompletionMessage(role: Role, content: string)

  /** One choice of a completion; `message?.content` may be absent. */
  datatype Choice = Choice(content: Option<string>)

  /** The outcome of the completion call: its choices, or a thrown error. */
  datatype Completion = Threw | Choices(choices: seq<Choice>)

  /** The reply message of a successful exchange. */
  datatype ReplyMessage = ReplyMessage(role: Role, content: string)

  datatype ResponseBody = ErrorBody(error: string) | MessageBody(message: ReplyMessage)

  datatype HttpResponse = HttpResponse(status: int, body: ResponseBody)

  const MessagesRequired: string := "Messages are required"
  const NoAnswer: string := "Failed to get response from AI"
  const InternalError: string := "Internal Server Error"

  /** `messages.map(({ role, content }) => ({ role, content }))`. */
  function Project(messages: seq<Message>): (r: seq<CompletionMessage>)
    ensures |r| == |messages|
    ensures forall i :: 0 <= i < |messages| ==>
      r[i].role == messages[i].role && r[i].content == messages[i].content
  {
    if messages == [] then [] else [CompletionMessage(messages[0].role, messages[0].content)] + Project(messages[1..])
  }

  /** `choices[0]?.message?.content`: None when there is no first choice or it has no content. */
  function FirstContent(choices: seq<Choice>): (c: Option<string>)
    ensures c.Some? <==> choices != [] && choices[0].content.Some?
    ensures c.Some? ==> c.value == choices[0].content.value
  {
    if choices == [] then None else choices[0].content
  }

  /**
   * The handler, with the completion service given as `complete`. Only the
   * projected history is passed to it, and only after validation.
   */
  function Post(body: RequestBody, complete: seq<CompletionMessage> -> Completion): (r: HttpResponse)
    ensures r.status == 200 || r.status == 400 || r.status == 500
    ensures r.status == 200 <==> r.body.MessageBody?
    ensures r.status == 400 <==> r.body == ErrorBody(MessagesRequired)
    ensures r.status == 400 <==> body.Body? && (body.messages.None? || body.messages.value == [])
    ensures r.body.MessageBody? ==> r.body.message.role == Assistant && r.body.message.content != ""
  {
    match body
    case Malformed => HttpResponse(500, ErrorBody(InternalError))
    case Body(messages) =>
      if messages.None? || messages.value == [] then
        HttpResponse(400, ErrorBody(MessagesRequired))
      else
        match complete(Project(messages.value))
        case Threw => HttpResponse(500, ErrorBody(InternalError))
        case Choices(choices) =>
          var answer := FirstContent(choices);
          if answer.None? || answer.value == "" then
            HttpResponse(500, ErrorBody(NoAnswer))
          else
            HttpResponse(200, MessageBody(ReplyMessage(Assistant, answer.value)))
  }

  /** A missing or empty history is refused before the service is called: the service does not matter. */
  lemma RejectsEmptyHistoryWithoutCalling(
    body: RequestBody, one: seq<CompletionMessage> -> Completion, other: seq<CompletionMessage> -> Completion)
    requires body.Body? && (body.messages.None? || body.messages.value == [])
    ensures Post(body, one) == Post(body, other) == HttpResponse(400, ErrorBody(MessagesRequired))
  {
  }

  /** The service is asked about the projected history and nothing else. */
  lemma ServiceSeesOnlyProjection(
    messages: seq<Message>, one: seq<CompletionMessage> -> Completion, other: seq<CompletionMessage> -> Completion)
    requires one(Project(messages)) == other(Project(messages))
    ensures Post(Body(Some(messages)), one) == Post(Body(Some(messages)), other)
  {
  }

  /** The projection forgets ids, statuses, timestamps and tool calls. */
  lemma {:induction false} ProjectionIgnoresBookkeeping(a: seq<Message>, b: seq<Message>)
    requires |a| == |b|
    requires forall i :: 0 <= i < |a| ==> a[i].role == b[i].role && a[i].content == b[i].content
    ensures Project(a) == Project(b)
  {
    if a != [] {
      ProjectionIgnoresBookkeeping(a[1..], b[1..]);
    }
  }

  /**
   * The outcome of a call on a non-empty history, by the service's answer:
   * 200 with the first choice's content, 500 "Failed to get response from AI"
   * when it is absent or empty, 500 "Internal Server Error" when the call throws.
   */
  lemma EnvelopeByAnswer(messages: seq<Message>, complete: seq<CompletionMessage> -> Completion)
    requires messages != []
    ensures var r := Post(Body(Some(messages)), complete);
      match complete(Project(messages))
      case Threw => r == HttpResponse(500, ErrorBody(InternalError))
      case Choices(choices) =>
        if choices != [] && choices[0].content.Some? && choices[0].content.value != "" then
          r == HttpResponse(200, MessageBody(ReplyMessage(Assistant, choices[0].content.value)))
        else
          r == HttpResponse(500, ErrorBody(NoAnswer))
  {
  }

  /** A body that cannot be parsed gives 500 "Internal Server Error". */
  lemma MalformedBodyIsInternalError(complete: seq<CompletionMessage> -> Completion)
    ensures Post(Malformed, complete) == HttpResponse(500, ErrorBody(InternalError))
  {
  }
}
