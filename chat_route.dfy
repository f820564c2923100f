/**
 * The chat proxy route (app/api/chat/route.ts, `POST`): validates the request,
 * forwards `{ prompt, repoUrl?, history? }` and the Authorization header to the
 * worker, and chooses the response from the worker's status and body.
 */
module ChatRoute {

  import opened Options
  import opened Strings
  import opened Wire

  datatype Header = Header(name: string, value: string)

  /** The request body after `request.json()`: not JSON, JSON `null` (whose
      `.prompt` throws outside any `try`), or an object. `prompt` is given when it
      is a string; `repoUrl` and `history` are taken at their declared types,
      with `history` [] when absent. */
  datatype RequestBody =
    | Malformed
    | NullBody
    | Body(prompt: Option<string>, repoUrl: Option<string>, history: seq<ChatMessage>)

  /** What the worker fetch produced. */
  datatype Upstream = Threw(message: Option<string>) | Replied(status: int, hasBody: bool)

  /** The JSON payload posted to the worker; absent keys are `None`. */
  datatype Payload = Payload(prompt: string, repoUrl: Option<string>, history: Option<seq<ChatMessage>>)

  datatype Outbound = Outbound(url: string, headers: seq<Header>, payload: Payload)

  /** The body of the route's response. */
  datatype ResponseBody =
    | JsonError(error: string)   // `NextResponse.json({ error })`
    | UpstreamStream             // the worker's body, passed through
    | NdjsonText(text: string)   // a synthesised NDJSON text

  datatype Response = Response(status: int, headers: seq<Header>, body: ResponseBody)

  datatype PostResult =
    | Uncaught                                    // the handler itself threw
    | Answered(sent: Option<Outbound>, response: Response)

  const MissingConfigError: string := "CLOUDFLARE_WORKER_URL is not configured"
  const InvalidJsonError: string := "Invalid JSON body"
  const InvalidPromptError: string := "Missing or invalid 'prompt' field"
  const NoBodyError: string := "No response body from worker"

  const JsonHeaders: seq<Header> := [Header("Content-Type", "application/json")]
  const NdjsonHeaders: seq<Header> := [Header("Content-Type", "application/x-ndjson")]
  const StreamHeaders: seq<Header> := [
    Header("Content-Type", "application/x-ndjson"),
    Header("Cache-Control", "no-cache, no-store, must-revalidate"),
    Header("X-Accel-Buffering", "no"),
    Header("Connection", "keep-alive")
  ]

  /** A request the route forwards: parsed, and with a non-empty string prompt. */
  predicate ValidBody(body: RequestBody) {
    body.Body? && Truthy(body.prompt)
  }

  /** The message of the synthesised line for a bodiless worker error. */
  function StatusFailure(status: int): string {
    "Request failed with status " + IntToString(status)
  }

  /** The outbound request: the prompt always, `repoUrl` only when truthy,
      `history` only when non-empty, Authorization only when present and non-empty,
      each forwarded unchanged. */
  function OutboundFor(workerUrl: string, body: RequestBody, authHeader: Option<string>): (o: Outbound)
    requires ValidBody(body)
    ensures o.url == workerUrl && o.payload.prompt == body.prompt.value
    ensures o.payload.repoUrl.Some? <==> Truthy(body.repoUrl)
    ensures o.payload.repoUrl.Some? ==> o.payload.repoUrl == body.repoUrl
    ensures o.payload.history.Some? <==> body.history != []
    ensures o.payload.history.Some? ==> o.payload.history.value == body.history
    ensures Header("Content-Type", "application/json") in o.headers
    ensures forall v :: Header("Authorization", v) in o.headers <==> Truthy(authHeader) && v == authHeader.value
  {
    var auth := if Truthy(authHeader) then [Header("Authorization", authHeader.value)] else [];
    Outbound(
      workerUrl,
      [Header("Content-Type", "application/json")] + auth,
      Payload(body.prompt.value,
              if Truthy(body.repoUrl) then body.repoUrl else None,
              if body.history != [] then Some(body.history) else None))
  }

  /** The route's response to one request; `refusal` is the message of the error
      `new Response` throws when it refuses the worker's failing status. */
  function Post(workerUrl: Option<string>, body: RequestBody, authHeader: Option<string>,
                upstream: Upstream, refusal: string): (r: PostResult)
    // Configuration is checked before the body is read.
    ensures !Truthy(workerUrl) ==> r == Answered(None, Response(500, JsonHeaders, JsonError(MissingConfigError)))
    ensures Truthy(workerUrl) && body.NullBody? ==> r == Uncaught
    // Invalid input: 400, and nothing is sent upstream.
    ensures Truthy(workerUrl) && body.Malformed? ==> r == Answered(None, Response(400, JsonHeaders, JsonError(InvalidJsonError)))
    ensures Truthy(workerUrl) && body.Body? && !Truthy(body.prompt) ==>
              r == Answered(None, Response(400, JsonHeaders, JsonError(InvalidPromptError)))
    // The worker is contacted exactly for a configured, valid request.
    ensures r.Answered? && r.sent.Some? <==> Truthy(workerUrl) && ValidBody(body)
    ensures r.Answered? && r.sent.Some? ==> r.sent.value == OutboundFor(workerUrl.value, body, authHeader)
    // Every answered request gets a status, and only a failing worker status that
    // a response can carry (200-599, not 304) is mirrored.
    ensures r.Answered? ==>
              || r.response.status in {200, 400, 500}
              || (&& upstream.Replied? && r.response.status == upstream.status
                  && !IsOk(upstream.status) && 200 <= upstream.status <= 599 && upstream.status != 304)
  {
    if !Truthy(workerUrl) then
      Answered(None, Response(500, JsonHeaders, JsonError(MissingConfigError)))
    else
      match body
      case Malformed => Answered(None, Response(400, JsonHeaders, JsonError(InvalidJsonError)))
      case NullBody => Uncaught
      case Body(prompt, repoUrl, history) =>
        if !Truthy(prompt) then
          Answered(None, Response(400, JsonHeaders, JsonError(InvalidPromptError)))
        else
          var sent := OutboundFor(workerUrl.value, body, authHeader);
          var response :=
            match upstream
            case Threw(m) => Response(500, JsonHeaders, JsonError(m.GetOr("Unknown error")))
            case Replied(status, hasBody) =>
              if !IsOk(status) then
                // Both failure responses carry a body and the worker's status; a
                // refused status throws into the `catch`.
                if RefusedWithBody(status) then Response(500, JsonHeaders, JsonError(refusal))
                else if hasBody then Response(status, NdjsonHeaders, UpstreamStream)
                else Response(status, NdjsonHeaders, NdjsonText(ErrorRecord(StatusFailure(status))))
              else if !hasBody then Response(500, JsonHeaders, JsonError(NoBodyError))
              else Response(200, StreamHeaders, UpstreamStream);
          Answered(Some(sent), response)
  }

  /** A 200 is sent exactly when the worker answered OK with a body, and then the
      worker's stream goes out with caching and proxy buffering switched off. */
  lemma SuccessIsUnbufferedStream(workerUrl: Option<string>, body: RequestBody, authHeader: Option<string>,
                                  upstream: Upstream, refusal: string)
    requires Post(workerUrl, body, authHeader, upstream, refusal).Answered?
    ensures var resp := Post(workerUrl, body, authHeader, upstream, refusal).response;
            resp.status == 200 <==>
              Truthy(workerUrl) && ValidBody(body) && upstream.Replied? && IsOk(upstream.status) && upstream.hasBody
    ensures var resp := Post(workerUrl, body, authHeader, upstream, refusal).response;
            resp.status == 200 ==>
              resp.body == UpstreamStream
              && Header("Cache-Control", "no-cache, no-store, must-revalidate") in resp.headers
              && Header("X-Accel-Buffering", "no") in resp.headers
  {
  }

  /** A failing worker status that `new Response` accepts is mirrored; without a
      body the route sends exactly one NDJSON error line, which decodes to
      "Request failed with status N". A refused status (304, the one null-body
      status that is not OK, or one outside 200-599) gives a 500 JSON error carrying the constructor's message instead. */
  lemma WorkerFailureMirrored(workerUrl: Option<string>, body: RequestBody, authHeader: Option<string>,
                              status: int, hasBody: bool, refusal: string)
    requires Truthy(workerUrl) && ValidBody(body) && !IsOk(status)
    ensures RefusedWithBody(status) ==>
              Post(workerUrl, body, authHeader, Replied(status, hasBody), refusal).response
                == Response(500, JsonHeaders, JsonError(refusal))
    ensures var resp := Post(workerUrl, body, authHeader, Replied(status, hasBody), refusal).response;
            !RefusedWithBody(status) ==>
            resp.status == status
            && (hasBody ==> resp.body == UpstreamStream)
            && (!hasBody ==>
                  (&& resp.body.NdjsonText?
                   && Split(resp.body.text, '\n') == [ErrorJson(StatusFailure(status)), ""]
                   && DecodeErrorJson(Split(resp.body.text, '\n')[0]) == Some(StatusFailure(status))))
  {
    ErrorRecordIsOneLine(StatusFailure(status));
    ErrorJsonRoundTrip(StatusFailure(status));
  }

  /** An exception on the way to the worker gives a 500 JSON error carrying its
      message, not an NDJSON line; an OK reply without a body gives a 500 too. */
  lemma FailuresOutsideTheStream(workerUrl: Option<string>, body: RequestBody, authHeader: Option<string>,
                                 upstream: Upstream, refusal: string)
    requires Truthy(workerUrl) && ValidBody(body)
    ensures upstream.Threw? ==>
              Post(workerUrl, body, authHeader, upstream, refusal).response
                == Response(500, JsonHeaders, JsonError(upstream.message.GetOr("Unknown error")))
    ensures upstream.Replied? && IsOk(upstream.status) && !upstream.hasBody ==>
              Post(workerUrl, body, authHeader, upstream, refusal).response == Response(500, JsonHeaders, JsonError(NoBodyError))
  {
  }
}
