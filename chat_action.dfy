/**
 * The chat server action (app/actions/chat.ts): forwards the latest prompt to
 * the worker and hands back either the worker's NDJSON body or a one-line
 * error stream, mapping failures to user-facing text.
 */
module ChatAction {

  import opened Options
  import opened Strings
  import opened Wire

  // The user-facing sentences (long literals are written in two pieces).
  const RateLimitedMessage: string := "Too many requests. " + "Please wait a moment and try again."
  const UnavailableMessage: string := "The AI service is temporarily " + "unavailable. Please try again."
  const UnreachableMessage: string := "Unable to reach the AI service. " + "Please check your connection and try again."
  const TimedOutMessage: string := "The request timed out. " + "Please try a simpler question."
  const MissingConfigMessage: string :=
    "CLOUDFLARE_WORKER_URL is not configured. "
    + "Set it in your environment variables to point to the hello-agent-web-worker."
  const NoBodyMessage: string := "No response body from worker"

  /** `formatHttpError`: a fixed sentence for 429 and for 500/502/503, otherwise
      the status itself. */
  function FormatHttpError(status: int): (r: string)
    ensures status == 429 <==> r == RateLimitedMessage
    ensures (status == 500 || status == 502 || status == 503) <==> r == UnavailableMessage
    ensures status != 429 && status != 500 && status != 502 && status != 503 ==>
              r == "Request failed with status " + IntToString(status)
  {
    assert RateLimitedMessage[1] == 'o' && UnavailableMessage[1] == 'h';
    if status == 429 then RateLimitedMessage
    else if status == 500 || status == 502 || status == 503 then UnavailableMessage
    else
      var r := "Request failed with status " + IntToString(status);
      assert r[0] == 'R' && RateLimitedMessage[0] == 'T' && UnavailableMessage[0] == 'T';
      r
  }

  /** Every status without a fixed sentence can be read back from its message. */
  lemma FormatHttpErrorKeepsStatus(m: int, n: int)
    requires m != 429 && m != 500 && m != 502 && m != 503
    requires FormatHttpError(m) == FormatHttpError(n)
    ensures m == n
  {
    var p := "Request failed with status ";
    assert (p + IntToString(m))[|p|..] == IntToString(m);
    assert (p + IntToString(n))[|p|..] == IntToString(n);
    IntToStringInjective(m, n);
  }

  predicate MentionsConnectivity(error: string) {
    Contains(error, "fetch") || Contains(error, "network")
  }

  /** `formatErrorForUser`: connectivity words are checked before "timeout", and
      anything else is shown with its raw text. */
  function FormatErrorForUser(error: string): (r: string)
    ensures MentionsConnectivity(error) <==> r == UnreachableMessage
    ensures !MentionsConnectivity(error) && Contains(error, "timeout") <==> r == TimedOutMessage
    ensures !MentionsConnectivity(error) && !Contains(error, "timeout") ==> r == "Something went wrong: " + error
  {
    assert UnreachableMessage[0] == 'U' && TimedOutMessage[0] == 'T';
    if MentionsConnectivity(error) then UnreachableMessage
    else if Contains(error, "timeout") then TimedOutMessage
    else
      var r := "Something went wrong: " + error;
      assert r[0] == 'S';
      r
  }

  /** The fallback message keeps the raw detail: no other error, whether it
      gets a fixed sentence or a fallback of its own, gives the same text. */
  lemma FormatErrorForUserKeepsDetail(error: string, other: string)
    requires !MentionsConnectivity(error) && !Contains(error, "timeout")
    requires FormatErrorForUser(error) == FormatErrorForUser(other)
    ensures other == error
  {
    var p := "Something went wrong: ";
    var r := p + error;
    assert r[0] == 'S' && UnreachableMessage[0] == 'U' && TimedOutMessage[0] == 'T';
    assert FormatErrorForUser(other) == p + other;
    assert (p + error)[|p|..] == error && (p + other)[|p|..] == other;
  }

  // ---------------------------------------------------------------------------

  /** What a worker body parses to: not JSON at all (or JSON `null`, whose
      `.content` throws inside the same `try`), or an object whose `content`
      is given when it is a string. */
  datatype ParsedBody = NotJson | Json(content: Option<string>)

  /** `{ prompt, repoUrl? }` posted to the worker. */
  datatype WorkerRequest = WorkerRequest(url: string, prompt: string, repoUrl: Option<string>)

  /** The body of a worker response: absent (`response.body` is null and
      `response.text()` gives ""), present with its text, or failing while it is
      read (`response.text()` rejects, with its message when it is an `Error`). */
  datatype ResponseBody = NoBody | Body(text: string) | Unreadable(message: Option<string>)

  /** The text `response.text()` resolves to, when it resolves. */
  function BodyText(body: ResponseBody): string
    requires !body.Unreadable?
  {
    if body.Body? then body.text else ""
  }

  /** What the fetch produced: an exception (its message when it is an `Error`),
      or a response with its status and its body. */
  datatype WorkerReply =
    | Threw(message: Option<string>)
    | Replied(status: int, body: ResponseBody)

  /** The stream the action returns. */
  datatype ActionStream = ErrorStream(message: string) | WorkerBody

  datatype ActionResult =
    | Rejected  // `messages[messages.length - 1].content` threw before any `try`
    | Returned(request: Option<WorkerRequest>, stream: ActionStream)

  /** The chunks of the returned stream, given the worker's own chunks: the
      worker's body is passed through untouched, and `createErrorStream` enqueues
      exactly one chunk, which is exactly one NDJSON line, and that line decodes
      back to the message. */
  function StreamChunks(stream: ActionStream, workerChunks: seq<string>): (r: seq<string>)
    ensures stream.WorkerBody? ==> r == workerChunks
    ensures stream.ErrorStream? ==>
              && |r| == 1 && Split(r[0], '\n') == [ErrorJson(stream.message), ""]
              && DecodeErrorJson(Split(r[0], '\n')[0]) == Some(stream.message)
  {
    match stream
    case ErrorStream(m) =>
      ErrorRecordIsOneLine(m);
      ErrorJsonRoundTrip(m);
      [ErrorRecord(m)]
    case WorkerBody => workerChunks
  }

  /** The message for a non-OK worker response: the body's `content` when truthy,
      "Worker returned N" when the body is JSON without it, the status sentence
      when the body is not JSON. */
  method WorkerErrorMessage(status: int, text: string, parseBody: string -> ParsedBody)
    returns (errorMessage: string)
    ensures parseBody(text).NotJson? ==> errorMessage == FormatHttpError(status)
    ensures parseBody(text).Json? && Truthy(parseBody(text).content) ==>
              errorMessage == parseBody(text).content.value
    ensures parseBody(text).Json? && !Truthy(parseBody(text).content) ==>
              errorMessage == "Worker returned " + IntToString(status)
  {
    errorMessage := "Worker returned " + IntToString(status);
    var parsed := parseBody(text);
    match parsed
    case NotJson =>
      errorMessage := FormatHttpError(status);
    case Json(content) =>
      if content.Some? && content.value != "" {
        errorMessage := content.value;
      }
  }

  /** The `chat` action, given the configured worker URL and what the worker did. */
  method Chat(messages: seq<ChatMessage>, repoUrl: Option<string>, workerUrl: Option<string>,
              reply: WorkerReply, parseBody: string -> ParsedBody)
    returns (result: ActionResult)
    ensures messages == [] <==> result.Rejected?
    ensures messages != [] && !Truthy(workerUrl) ==> result == Returned(None, ErrorStream(MissingConfigMessage))
    ensures messages != [] && Truthy(workerUrl) ==>
              result.Returned? && result.request ==
                Some(WorkerRequest(workerUrl.value, messages[|messages| - 1].content,
                                   if Truthy(repoUrl) then repoUrl else None))
    ensures messages != [] && Truthy(workerUrl) && reply.Threw? ==>
              result.stream == ErrorStream(FormatErrorForUser(reply.message.GetOr("Unknown error")))
    ensures messages != [] && Truthy(workerUrl) && reply.Replied? && !IsOk(reply.status) && reply.body.Unreadable? ==>
              result.stream == ErrorStream(FormatErrorForUser(reply.body.message.GetOr("Unknown error")))
    ensures messages != [] && Truthy(workerUrl) && reply.Replied? && !IsOk(reply.status) && !reply.body.Unreadable? ==>
              var parsed := parseBody(BodyText(reply.body));
              result.stream == ErrorStream(
                if parsed.NotJson? then FormatHttpError(reply.status)
                else if Truthy(parsed.content) then parsed.content.value
                else "Worker returned " + IntToString(reply.status))
    ensures messages != [] && Truthy(workerUrl) && reply.Replied? && IsOk(reply.status) ==>
              result.stream == (if reply.body.NoBody? then ErrorStream(NoBodyMessage) else WorkerBody)
    ensures result.Returned? && result.stream == WorkerBody ==>
              reply.Replied? && IsOk(reply.status) && !reply.body.NoBody?
  {
    if messages == [] {
      return Rejected;
    }
    var latestMessage := messages[|messages| - 1].content;
    if !Truthy(workerUrl) {
      return Returned(None, ErrorStream(MissingConfigMessage));
    }
    var request := WorkerRequest(workerUrl.value, latestMessage, if Truthy(repoUrl) then repoUrl else None);
    match reply
    case Threw(message) =>
      result := Returned(Some(request), ErrorStream(FormatErrorForUser(message.GetOr("Unknown error"))));
    case Replied(status, body) =>
      if !IsOk(status) {
        if body.Unreadable? {
          // The rejection of `response.text()` lands in the outer `catch`.
          result := Returned(Some(request), ErrorStream(FormatErrorForUser(body.message.GetOr("Unknown error"))));
        } else {
          var errorMessage := WorkerErrorMessage(status, BodyText(body), parseBody);
          result := Returned(Some(request), ErrorStream(errorMessage));
        }
      } else if body.NoBody? {
        result := Returned(Some(request), ErrorStream(NoBodyMessage));
      } else {
        result := Returned(Some(request), WorkerBody);
      }
  }
}
