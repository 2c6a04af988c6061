/** The axios instance of src/services/zohoApi.js with its two interceptors,
    and `zohoGet` of src/services/zohoHelpers.js, which drives it.

    The Books API server is a `BooksServer` object that answers the k-th
    request it receives with the k-th scripted reply (a timeout once the
    script is used up) and logs every request. The request interceptor is
    `WithAuth`; the response interceptor's choice is `OnReply`; `Dispatch`
    is one pass through interceptors and transport, and re-enters itself
    once for the retry, exactly as `api(original)` does. */
module ZohoApi {
  import opened Values
  import Tokens

  const AuthorizationHeader := "Authorization"
  const OrgHeader := "X-com-zoho-books-organizationid"
  const AuthScheme := "Zoho-oauthtoken "
  /** Status on which the response interceptor refreshes and retries. */
  const Unauthorized := 401
  /** Per-request timeout of the axios instance; a reply that does not
      arrive within it is the `TimedOut` reply. */
  const TimeoutMs := 20000

  /** An axios request config: path, query parameters, headers and the
      `__retried` flag the response interceptor sets. */
  datatype Request = Request(path: string, params: Record, headers: map<string, string>, retried: bool)

  datatype HttpReply =
    | Success(body: Value)
    | Failure(status: int, body: Value)
    | TimedOut

  datatype ApiError =
    | HttpError(status: int, body: Value)
    | Timeout
    /** The token endpoint failed while a token was being obtained. */
    | TokenError(message: string)

  /** One logical `zohoGet` call and what it returned. */
  datatype Call = Call(path: string, params: Record, outcome: Result<Value, ApiError>)

  predicate IsUnauthorized(reply: HttpReply)
  {
    reply.Failure? && reply.status == Unauthorized
  }

  /** What the promise settles with when no interceptor intervenes. */
  function Settled(reply: HttpReply): Result<Value, ApiError>
  {
    match reply
    case Success(body) => Ok(body)
    case Failure(status, body) => Err(HttpError(status, body))
    case TimedOut => Err(Timeout)
  }

  /** `if (ORG_ID)`: configured and not empty. */
  predicate OrgConfigured(orgId: Option<string>)
  {
    orgId.Some? && orgId.value != ""
  }

  /** The request interceptor, given the token `getAccessToken` produced. */
  function WithAuth(req: Request, token: string, orgId: Option<string>): (out: Request)
    ensures out.path == req.path && out.params == req.params && out.retried == req.retried
    ensures AuthorizationHeader in out.headers && out.headers[AuthorizationHeader] == AuthScheme + token
    ensures OrgConfigured(orgId) ==> OrgHeader in out.headers && out.headers[OrgHeader] == orgId.value
    ensures !OrgConfigured(orgId) ==> (OrgHeader in out.headers <==> OrgHeader in req.headers)
    ensures forall h :: h in req.headers && h != AuthorizationHeader && h != OrgHeader ==>
      h in out.headers && out.headers[h] == req.headers[h]
    ensures forall h :: h in out.headers ==> h in req.headers || h == AuthorizationHeader || h == OrgHeader
  {
    var headers := req.headers[AuthorizationHeader := AuthScheme + token];
    req.(headers := if OrgConfigured(orgId) then headers[OrgHeader := orgId.value] else headers)
  }

  /** The response interceptor's choice for one reply. */
  datatype Decision = PassThrough(body: Value) | RefreshAndRetry | Rethrow(error: ApiError)

  function OnReply(reply: HttpReply, retried: bool): (d: Decision)
    ensures d.RefreshAndRetry? <==> IsUnauthorized(reply) && !retried
    ensures d.PassThrough? <==> reply.Success?
    ensures d.PassThrough? ==> d.body == reply.body
    ensures d.Rethrow? ==> Err(d.error) == Settled(reply)
  {
    match reply
    case Success(body) => PassThrough(body)
    case Failure(status, body) =>
      if status == Unauthorized && !retried then RefreshAndRetry else Rethrow(HttpError(status, body))
    case TimedOut => Rethrow(Timeout)
  }

  /** A request as it leaves the client: same path and parameters as the
      logical call, an Authorization header with the Zoho scheme, and the
      organisation header whenever one is configured. */
  ghost predicate Outgoing(sent: Request, req: Request, orgId: Option<string>)
  {
    && sent.path == req.path && sent.params == req.params
    && AuthorizationHeader in sent.headers
    && AuthScheme <= sent.headers[AuthorizationHeader]
    && (OrgConfigured(orgId) ==> OrgHeader in sent.headers && sent.headers[OrgHeader] == orgId.value)
    && (!OrgConfigured(orgId) ==> (OrgHeader in sent.headers <==> OrgHeader in req.headers))
  }

  /** The Books API server: replies by script, logs what it receives. */
  class BooksServer {
    const replies: seq<HttpReply>
    var sent: seq<Request>

    constructor (replies: seq<HttpReply>)
      ensures this.replies == replies && sent == []
    {
      this.replies := replies;
      sent := [];
    }

    function ReplyTo(k: nat): HttpReply
      reads this
    {
      if k < |replies| then replies[k] else TimedOut
    }

    method Handle(req: Request) returns (reply: HttpReply)
      modifies this
      ensures sent == old(sent) + [req]
      ensures reply == ReplyTo(|old(sent)|)
    {
      reply := ReplyTo(|sent|);
      sent := sent + [req];
    }
  }

  class ApiClient {
    const tokens: Tokens.TokenManager
    const server: BooksServer
    const orgId: Option<string>
    /** Every logical call made through `Get`, in order. */
    ghost var calls: seq<Call>

    constructor (tokens: Tokens.TokenManager, server: BooksServer, orgId: Option<string>)
      ensures this.tokens == tokens && this.server == server && this.orgId == orgId && calls == []
    {
      this.tokens := tokens;
      this.server := server;
      this.orgId := orgId;
      calls := [];
    }

    /** Between calls no refresh is pending. */
    ghost predicate Valid()
      reads this, tokens
    {
      tokens.inflight == None && tokens.waiters == 0
    }

    /** One pass through request interceptor, transport and response
        interceptor; the retry re-enters it with `__retried` set. */
    method Dispatch(req: Request, now: int) returns (r: Result<Value, ApiError>)
      requires Valid()
      modifies tokens, tokens.endpoint, server
      decreases if req.retried then 0 else 1
      ensures Valid()
      ensures old(server.sent) <= server.sent
      ensures |server.sent| <= |old(server.sent)| + (if req.retried then 1 else 2)
      ensures forall i :: |old(server.sent)| <= i < |server.sent| ==> Outgoing(server.sent[i], req, orgId)
      // nothing is sent only when no token could be obtained
      ensures |server.sent| == |old(server.sent)| ==> r.Err? && r.error.TokenError?
      // the first reply decides unless it is a 401 on a request not yet retried
      ensures |server.sent| > |old(server.sent)| ==> server.sent[|old(server.sent)|].retried == req.retried
      ensures |server.sent| > |old(server.sent)| && !(IsUnauthorized(server.ReplyTo(|old(server.sent)|)) && !req.retried) ==>
        |server.sent| == |old(server.sent)| + 1 && r == Settled(server.ReplyTo(|old(server.sent)|))
        && tokens.endpoint.posts == old(tokens.endpoint.posts) + (if old(tokens.IsExpiring(now)) then 1 else 0)
      // a second request goes out only after a 401 on the first, a forced refresh, and with the flag set
      ensures |server.sent| == |old(server.sent)| + 2 ==>
        IsUnauthorized(server.ReplyTo(|old(server.sent)|)) && !req.retried
        && server.sent[|old(server.sent)| + 1].retried
        && tokens.endpoint.posts > old(tokens.endpoint.posts)
      // after a 401 on the first request, the call ends after one request only if the refresh failed
      ensures |server.sent| == |old(server.sent)| + 1 && IsUnauthorized(server.ReplyTo(|old(server.sent)|)) && !req.retried ==>
        r.Err? && r.error.TokenError?
      // the outcome is the last reply's, passed through unchanged on success
      ensures r.Ok? ==> |server.sent| > |old(server.sent)| && server.ReplyTo(|server.sent| - 1) == Success(r.value)
      ensures r.Err? && !r.error.TokenError? ==> |server.sent| > |old(server.sent)| && Settled(server.ReplyTo(|server.sent| - 1)) == r
      // the last request carried the token held at the end
      ensures (r.Ok? || !r.error.TokenError?) ==>
        && |server.sent| > |old(server.sent)| && tokens.accessToken.Some?
        && AuthorizationHeader in server.sent[|server.sent| - 1].headers
        && server.sent[|server.sent| - 1].headers[AuthorizationHeader] == AuthScheme + tokens.accessToken.value
    {
      var token := tokens.GetAccessToken(now);
      if token.Err? {
        return Err(TokenError(token.error));
      }
      var outgoing := WithAuth(req, token.value, orgId);
      var reply := server.Handle(outgoing);
      match OnReply(reply, outgoing.retried) {
        case PassThrough(body) =>
          r := Ok(body);
        case Rethrow(error) =>
          r := Err(error);
        case RefreshAndRetry =>
          var original := outgoing.(retried := true);
          var refreshed := tokens.RefreshAccessToken(now);
          if refreshed.Err? {
            return Err(TokenError(refreshed.error));
          }
          var newToken := tokens.GetAccessToken(now);
          if newToken.Err? {
            return Err(TokenError(newToken.error));
          }
          original := original.(headers := original.headers[AuthorizationHeader := AuthScheme + newToken.value]);
          r := Dispatch(original, now);
      }
    }

    /** `zohoGet(path, params)`: one logical call, logged in `calls`. */
    method Get(path: string, params: Record, now: int) returns (r: Result<Value, ApiError>)
      requires Valid()
      modifies this, tokens, tokens.endpoint, server
      ensures Valid()
      ensures calls == old(calls) + [Call(path, params, r)]
      ensures old(server.sent) <= server.sent && |server.sent| <= |old(server.sent)| + 2
      ensures forall i :: |old(server.sent)| <= i < |server.sent| ==>
        Outgoing(server.sent[i], Request(path, params, map[], false), orgId)
      ensures r.Ok? ==> |old(server.sent)| < |server.sent| <= |server.replies|
      ensures r.Ok? ==> server.ReplyTo(|server.sent| - 1) == Success(r.value)
    {
      r := Dispatch(Request(path, params, map[], false), now);
      calls := calls + [Call(path, params, r)];
    }
  }
}
