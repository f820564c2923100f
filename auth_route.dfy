/**
 * The authentication proxy route (app/api/auth/route.ts, `POST`): validates
 * `{ password }`, posts it to the worker's `/auth` endpoint and forwards the
 * worker's JSON and status.
 */
module AuthRoute {

  import opened Options
  import opened Strings
  import opened Wire

  /** The request body after `request.json()`; `password` is given when it is a string. */
  datatype RequestBody = Malformed | NullBody | Body(password: Option<string>)

  /** What the worker call produced: an exception from `fetch` or from
      `response.json()` (its message when it is an `Error`), or the worker's
      status and JSON, which the route passes on without looking inside. */
  datatype Upstream = Threw(message: Option<string>) | Answered(status: int, data: string)

  /** `{ success: false, error }` or the worker's own JSON. */
  datatype ResponseBody = Failure(error: string) | Forwarded(data: string)

  datatype Response = Response(status: int, body: ResponseBody)

  datatype AuthRequest = AuthRequest(url: string, password: string)

  datatype PostResult = Uncaught | Replied(sent: Option<AuthRequest>, response: Response)

  const MissingConfigError: string := "CLOUDFLARE_WORKER_URL is not configured"
  const InvalidJsonError: string := "Invalid JSON body"
  const MissingPasswordError: string := "Missing password"

  /** `WORKER_URL.replace(/\/$/, "") + "/auth"`: at most one trailing slash is dropped. */
  function AuthUrl(workerUrl: string): (u: string)
    ensures |u| >= 5 && u[|u| - 5..] == "/auth"
    ensures workerUrl != [] && workerUrl[|workerUrl| - 1] == '/' ==> u == workerUrl + "auth"
    ensures (workerUrl == [] || workerUrl[|workerUrl| - 1] != '/') ==> u == workerUrl + "/auth"
  {
    var base := if workerUrl != [] && workerUrl[|workerUrl| - 1] == '/' then workerUrl[..|workerUrl| - 1] else workerUrl;
    assert workerUrl != [] && workerUrl[|workerUrl| - 1] == '/' ==> base + "/" == workerUrl;
    base + "/auth"
  }

  /** A URL and the same URL with one trailing slash reach the same endpoint; a
      second trailing slash is kept (so "h//" gives "h//auth"). */
  lemma AuthUrlOneSlash(workerUrl: string)
    requires workerUrl == [] || workerUrl[|workerUrl| - 1] != '/'
    ensures AuthUrl(workerUrl + "/") == AuthUrl(workerUrl)
    ensures AuthUrl(workerUrl + "//") == workerUrl + "//auth"
  {
    var a, b := workerUrl + "/", workerUrl + "//";
    assert a[|a| - 1] == '/' && b[|b| - 1] == '/';
    assert a + "auth" == workerUrl + "/auth";
    assert b + "auth" == workerUrl + "//auth";
  }

  /** The route's response to one request; `refusal` is the message of the error
      `NextResponse.json` throws when it refuses the worker's status. */
  function Post(workerUrl: Option<string>, body: RequestBody, upstream: Upstream, refusal: string): (r: PostResult)
    ensures !Truthy(workerUrl) ==> r == Replied(None, Response(500, Failure(MissingConfigError)))
    ensures Truthy(workerUrl) && body.Malformed? ==> r == Replied(None, Response(400, Failure(InvalidJsonError)))
    ensures Truthy(workerUrl) && body.NullBody? ==> r == Uncaught
    ensures Truthy(workerUrl) && body.Body? && !Truthy(body.password) ==>
              r == Replied(None, Response(400, Failure(MissingPasswordError)))
    ensures r.Replied? && r.sent.Some? <==> Truthy(workerUrl) && body.Body? && Truthy(body.password)
    ensures r.Replied? && r.sent.Some? ==> r.sent.value == AuthRequest(AuthUrl(workerUrl.value), body.password.value)
    ensures r.Replied? && r.response.body.Forwarded? ==>
              && upstream == Answered(r.response.status, r.response.body.data)
              && 200 <= r.response.status <= 599 && r.response.status !in {204, 205, 304}
  {
    if !Truthy(workerUrl) then Replied(None, Response(500, Failure(MissingConfigError)))
    else
      match body
      case Malformed => Replied(None, Response(400, Failure(InvalidJsonError)))
      case NullBody => Uncaught
      case Body(password) =>
        if !Truthy(password) then Replied(None, Response(400, Failure(MissingPasswordError)))
        else
          var sent := AuthRequest(AuthUrl(workerUrl.value), password.value);
          match upstream
          case Threw(m) => Replied(Some(sent), Response(500, Failure(m.GetOr("Unknown error"))))
          // A status the JSON response cannot carry throws into the `catch`.
          case Answered(status, data) =>
            if RefusedWithBody(status) then Replied(Some(sent), Response(500, Failure(refusal)))
            else Replied(Some(sent), Response(status, Forwarded(data)))
  }

  /** Once the password is sent, the worker's answer is forwarded as it is when
      its status can carry JSON; an exception, including the one a refused status
      raises, becomes `success: false` with status 500 and the error text. */
  lemma AuthOutcome(workerUrl: Option<string>, password: string, upstream: Upstream, refusal: string)
    requires Truthy(workerUrl) && password != ""
    ensures upstream.Answered? && !RefusedWithBody(upstream.status) ==>
              Post(workerUrl, Body(Some(password)), upstream, refusal).response
                == Response(upstream.status, Forwarded(upstream.data))
    ensures upstream.Answered? && RefusedWithBody(upstream.status) ==>
              Post(workerUrl, Body(Some(password)), upstream, refusal).response == Response(500, Failure(refusal))
    ensures upstream.Threw? ==>
              Post(workerUrl, Body(Some(password)), upstream, refusal).response
                == Response(500, Failure(upstream.message.GetOr("Unknown error")))
  {
  }
}
