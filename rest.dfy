/** The HTTP side of the proxy: the `/ping` handler and the `/api/traces`
    handler, which checks HTTP Basic credentials and enqueues the request. */
module Rest {

  import opened Wrappers
  import opened Buffer

  /** The statuses the two handlers produce. */
  datatype Status = Ok | Accepted | Unauthorized | Forbidden
  {
    function Code(): int
    {
      match this
      case Ok => 200
      case Accepted => 202
      case Unauthorized => 401
      case Forbidden => 403
    }
  }

  /** A response: status, content type and response headers. */
  datatype Response = Response(status: Status, contentType: string, headers: map<string, string>)

  /** An inbound request as the handler sees it: the body it reads and the
      request headers. */
  datatype Request = Request(body: Bytes, headers: map<string, string>)

  /** A login/password pair, as configured and as decoded from a header. */
  datatype Credentials = Credentials(login: string, password: string)

  /** The decoder of a Basic `Authorization` value; `None` stands for the
      `ValueError` it raises on a value it cannot decode. */
  type Decoder = string -> Option<Credentials>

  const AuthorizationHeader: string := "Authorization"

  const AcceptEncoding: string := "Accept-Encoding"
  const ContentLength: string := "Content-Length"
  const ContentType: string := "Content-Type"
  const UserAgent: string := "User-Agent"

  /** The allow-list of request headers copied onto each envelope. */
  const BypassHeaderNames: seq<string> := [AcceptEncoding, ContentLength, ContentType, UserAgent]

  /** `GET /ping`: always 200, plain text, with the build version in a
      `version` header. */
  function Ping(version: string): (r: Response)
    ensures r.status == Ok && r.status.Code() == 200
    ensures r.contentType == "text/plain"
    ensures r.headers.Keys == {"version"} && r.headers["version"] == version
  {
    Response(Ok, "text/plain", map["version" := version])
  }

  /** The credential check of `/api/traces`, in the order the handler makes
      it: a missing or empty `Authorization` value, then decoding, then the
      password, then the login. `Accepted` means every check passed. */
  function Authenticate(headers: map<string, string>, decode: Decoder, expected: Credentials): (r: Status)
    ensures r == Accepted || r == Unauthorized || r == Forbidden
    ensures r == Unauthorized <==> AuthorizationHeader !in headers || headers[AuthorizationHeader] == ""
    ensures r == Accepted <==>
      AuthorizationHeader in headers && headers[AuthorizationHeader] != "" &&
      decode(headers[AuthorizationHeader]) == Some(expected)
  {
    if AuthorizationHeader !in headers || headers[AuthorizationHeader] == "" then Unauthorized
    else
      match decode(headers[AuthorizationHeader])
      case None => Forbidden
      case Some(basic) =>
        if expected.password != basic.password then Forbidden
        else if expected.login != basic.login then Forbidden
        else Accepted
  }

  /** A wrong password is refused whatever the login, and with the right
      password a wrong login is refused too. */
  lemma WrongCredentialsForbidden(headers: map<string, string>, decode: Decoder, expected: Credentials)
    requires AuthorizationHeader in headers && headers[AuthorizationHeader] != ""
    requires decode(headers[AuthorizationHeader]).Some?
    ensures decode(headers[AuthorizationHeader]).value.password != expected.password ==>
      Authenticate(headers, decode, expected) == Forbidden
    ensures decode(headers[AuthorizationHeader]).value.login != expected.login ==>
      Authenticate(headers, decode, expected) == Forbidden
  {
  }

  /** The header dictionary built for an envelope. The comprehension's
      filter tests the header NAME, which is never empty, so every
      allow-listed name is present, mapped to `None` when the request lacks it. */
  function BypassHeaders(requestHeaders: map<string, string>): (r: Headers)
    ensures r.Keys == {AcceptEncoding, ContentLength, ContentType, UserAgent}
    ensures AuthorizationHeader !in r
    ensures forall name :: name in r && name in requestHeaders ==> r[name] == Some(requestHeaders[name])
    ensures forall name :: name in r && name !in requestHeaders ==> r[name] == None
  {
    var r := map name | name in BypassHeaderNames && name != "" ::
      if name in requestHeaders then Some(requestHeaders[name]) else None;
    assert AcceptEncoding == BypassHeaderNames[0] && ContentLength == BypassHeaderNames[1];
    assert ContentType == BypassHeaderNames[2] && UserAgent == BypassHeaderNames[3];
    r
  }

  /** The outcome of `/api/traces` on a queue: the status and the new queue. */
  datatype Outcome = Outcome(status: Status, queue: seq<Envelope>)

  /** What `/api/traces` does to the shared queue: a rejected request leaves it
      alone; an accepted one adds exactly one envelope, at the tail. */
  function Receive(queue: seq<Envelope>, request: Request, decode: Decoder, expected: Credentials): (r: Outcome)
    ensures r.status == Authenticate(request.headers, decode, expected)
    ensures r.status != Accepted ==> r.queue == queue
    ensures r.status == Accepted ==>
      |r.queue| == |queue| + 1 && r.queue[..|queue|] == queue &&
      r.queue[|queue|].data == request.body &&
      r.queue[|queue|].headers == BypassHeaders(request.headers) &&
      r.queue[|queue|].headers.Keys == {AcceptEncoding, ContentLength, ContentType, UserAgent}
  {
    var status := Authenticate(request.headers, decode, expected);
    if status == Accepted then Outcome(status, queue + [Envelope(request.body, BypassHeaders(request.headers))])
    else Outcome(status, queue)
  }

  /** The aiohttp service holding the configured credentials and the shared queue. */
  class Api {
    const login: string
    const password: string
    const queue: Deque

    constructor (login: string, password: string, queue: Deque)
      ensures this.login == login && this.password == password && this.queue == queue
    {
      this.login := login;
      this.password := password;
      this.queue := queue;
    }

    /** `POST /api/traces`: every credential check happens before the append. */
    method StatisticReceiver(request: Request, decode: Decoder) returns (status: Status)
      modifies queue
      ensures Outcome(status, queue.items) == Receive(old(queue.items), request, decode, Credentials(login, password))
    {
      status := Authenticate(request.headers, decode, Credentials(login, password));
      if status == Accepted {
        queue.Append(Envelope(request.body, BypassHeaders(request.headers)));
      }
    }
  }
}
