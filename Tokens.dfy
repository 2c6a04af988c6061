/** The OAuth access-token cache of src/services/tokenManager.js.

    The module-level variables `accessToken`, `expiryTs` and `inflight` become
    the fields of one `TokenManager` object. The token endpoint is an
    `OAuthEndpoint` object that answers POSTs from a scripted list of replies
    and counts them. The shared `inflight` promise is modelled as an explicit
    two-step refresh: `BeginRefresh` issues the POST (or joins the one already
    pending) and `SettleRefresh` delivers its outcome to every caller that
    joined. The clock is the integer parameter `now` (milliseconds). */
module Tokens {
  import opened Values

  /** A token counts as expiring this long before its real expiry. */
  const SkewMs := 60000
  /** Lifetime assumed when the endpoint omits `expires_in` or sends 0. */
  const DefaultExpiresInSec := 3600

  /** What the token endpoint answers: a grant, or a failure of the POST
      (network error, 4xx or 5xx). */
  datatype TokenReply =
    | Granted(accessToken: string, expiresIn: Option<int>)
    | Refused(message: string)

  /** `!accessToken`: no token, or the empty string. */
  predicate HasToken(token: Option<string>)
  {
    token.Some? && token.value != ""
  }

  /** `isExpiring()` of the cached state at time `now`. */
  predicate Expiring(token: Option<string>, expiryTs: int, now: int)
  {
    !HasToken(token) || now + SkewMs >= expiryTs
  }

  /** `Number(data.expires_in || 3600) * 1000`. */
  function LifetimeMs(expiresIn: Option<int>): int
  {
    match expiresIn
    case None => DefaultExpiresInSec * 1000
    case Some(s) => if s == 0 then DefaultExpiresInSec * 1000 else s * 1000
  }

  /** A token stored with `expiryTs = now + LifetimeMs(expires_in)` (as
      `SettleRefresh` stores it) starts expiring exactly one skew before its
      lifetime runs out: after 59 minutes when `expires_in` is missing or
      zero, and after `expires_in` seconds less one minute otherwise. */
  lemma GrantExpiresOnSchedule(token: string, expiresIn: Option<int>, now: int, later: int)
    requires token != ""
    ensures var secs := if expiresIn.None? || expiresIn.value == 0 then 3600 else expiresIn.value;
      Expiring(Some(token), now + LifetimeMs(expiresIn), later) <==> later >= now + secs * 1000 - 60000
  {
  }

  /** A token granted at `now` with a non-empty value and a lifetime of more
      than the skew is not expiring at `now`, and stays so until the skew
      window before its expiry begins. */
  lemma FreshGrantNotExpiring(token: string, expiresIn: Option<int>, now: int, later: int)
    requires token != "" && LifetimeMs(expiresIn) > SkewMs
    requires now <= later < now + LifetimeMs(expiresIn) - SkewMs
    ensures !Expiring(Some(token), now + LifetimeMs(expiresIn), later)
  {
  }

  /** Once expiring, a token stays expiring as time passes. */
  lemma ExpiringIsStable(token: Option<string>, expiryTs: int, now: int, later: int)
    requires now <= later && Expiring(token, expiryTs, now)
    ensures Expiring(token, expiryTs, later)
  {
  }

  /** The OAuth token endpoint: it answers the k-th POST with `replies[k]`,
      and with a network failure once the script is used up. */
  class OAuthEndpoint {
    const replies: seq<TokenReply>
    var posts: nat

    constructor (replies: seq<TokenReply>)
      ensures this.replies == replies && posts == 0
    {
      this.replies := replies;
      posts := 0;
    }

    function NextReply(): TokenReply
      reads this
    {
      if posts < |replies| then replies[posts] else Refused("network error")
    }

    /** One `POST /oauth/v2/token` with `grant_type=refresh_token`. */
    method Post() returns (reply: TokenReply)
      modifies this
      ensures posts == old(posts) + 1
      ensures reply == old(NextReply())
    {
      reply := NextReply();
      posts := posts + 1;
    }
  }

  class TokenManager {
    var accessToken: Option<string>
    var expiryTs: int
    /** The pending refresh, holding the reply its POST will settle with. */
    var inflight: Option<TokenReply>
    /** How many callers await the pending refresh. */
    var waiters: nat
    const endpoint: OAuthEndpoint

    /** The state at module load: no token, expiry 0, nothing in flight. */
    constructor (endpoint: OAuthEndpoint)
      ensures accessToken == None && expiryTs == 0 && inflight == None && waiters == 0
      ensures this.endpoint == endpoint
    {
      accessToken := None;
      expiryTs := 0;
      inflight := None;
      waiters := 0;
      this.endpoint := endpoint;
    }

    predicate IsExpiring(now: int)
      reads this
    {
      Expiring(accessToken, expiryTs, now)
    }

    /** The first half of `refreshAccessToken`: with a refresh in flight the
        caller joins it and no POST is issued; otherwise the POST is issued
        and becomes the in-flight refresh. */
    method BeginRefresh()
      modifies this, endpoint
      ensures waiters == old(waiters) + 1
      ensures accessToken == old(accessToken) && expiryTs == old(expiryTs)
      ensures old(inflight).Some? ==> inflight == old(inflight) && endpoint.posts == old(endpoint.posts)
      ensures old(inflight).None? ==>
        endpoint.posts == old(endpoint.posts) + 1 && inflight == Some(old(endpoint.NextReply()))
    {
      if inflight.None? {
        var reply := endpoint.Post();
        inflight := Some(reply);
      }
      waiters := waiters + 1;
    }

    /** The second half: the POST settles. On a grant the token and its
        expiry are stored; on a failure both are left as they were and the
        error goes to every waiter. Either way `inflight` is cleared. */
    method SettleRefresh(now: int) returns (r: Result<string, string>, served: nat)
      requires inflight.Some?
      modifies this
      ensures inflight == None && waiters == 0 && served == old(waiters)
      ensures old(inflight.value).Granted? ==>
        r == Ok(old(inflight.value).accessToken)
        && accessToken == Some(old(inflight.value).accessToken)
        && expiryTs == now + LifetimeMs(old(inflight.value).expiresIn)
      ensures old(inflight.value).Refused? ==>
        r == Err(old(inflight.value).message)
        && accessToken == old(accessToken) && expiryTs == old(expiryTs)
    {
      match inflight.value {
        case Granted(token, expiresIn) =>
          accessToken := Some(token);
          expiryTs := now + LifetimeMs(expiresIn);
          r := Ok(token);
        case Refused(message) =>
          r := Err(message);
      }
      served := waiters;
      inflight := None;
      waiters := 0;
    }

    /** The reply the current or next refresh settles with. */
    function PendingReply(): TokenReply
      reads this, endpoint
    {
      if inflight.Some? then inflight.value else endpoint.NextReply()
    }

    /** `refreshAccessToken()` awaited to completion by one caller: it joins
        the refresh in flight if there is one, and issues a POST otherwise. */
    method RefreshAccessToken(now: int) returns (r: Result<string, string>)
      modifies this, endpoint
      ensures inflight == None && waiters == 0
      ensures endpoint.posts == old(endpoint.posts) + (if old(inflight).None? then 1 else 0)
      ensures match old(PendingReply())
        case Granted(token, expiresIn) =>
          r == Ok(token) && accessToken == Some(token) && expiryTs == now + LifetimeMs(expiresIn)
        case Refused(message) =>
          r == Err(message) && accessToken == old(accessToken) && expiryTs == old(expiryTs)
    {
      BeginRefresh();
      var served;
      r, served := SettleRefresh(now);
    }

    /** `getAccessToken()`: the cached token when it is not expiring (no POST,
        nothing changes); otherwise a refresh, whose failure propagates. */
    method GetAccessToken(now: int) returns (r: Result<string, string>)
      modifies this, endpoint
      ensures !old(IsExpiring(now)) ==>
        r == Ok(old(accessToken).value) && unchanged(this) && unchanged(endpoint)
      ensures old(IsExpiring(now)) ==>
        inflight == None && waiters == 0
        && endpoint.posts == old(endpoint.posts) + (if old(inflight).None? then 1 else 0)
        && match old(PendingReply())
           case Granted(token, expiresIn) =>
             r == Ok(token) && accessToken == Some(token) && expiryTs == now + LifetimeMs(expiresIn)
           case Refused(message) =>
             r == Err(message) && accessToken == old(accessToken) && expiryTs == old(expiryTs)
      ensures r.Ok? ==> accessToken == Some(r.value)
    {
      if IsExpiring(now) {
        var refreshed := RefreshAccessToken(now);
        if refreshed.Err? {
          return Err(refreshed.error);
        }
      }
      r := Ok(accessToken.value);
    }
  }

  /** `n` callers ask for a refresh while none is in flight, before the POST
      settles: the endpoint sees exactly one POST and every caller receives
      the outcome of that one POST. */
  method ConcurrentRefresh(m: TokenManager, n: nat, now: int) returns (r: Result<string, string>, served: nat)
    requires n >= 1 && m.inflight == None && m.waiters == 0
    modifies m, m.endpoint
    ensures m.endpoint.posts == old(m.endpoint.posts) + 1
    ensures served == n && m.inflight == None
    ensures match old(m.endpoint.NextReply())
      case Granted(token, expiresIn) =>
        r == Ok(token) && m.accessToken == Some(token) && m.expiryTs == now + LifetimeMs(expiresIn)
      case Refused(message) =>
        r == Err(message) && m.accessToken == old(m.accessToken) && m.expiryTs == old(m.expiryTs)
  {
    m.BeginRefresh();
    ghost var reply := m.inflight.value;
    assert reply == old(m.endpoint.NextReply());
    var i := 1;
    while i < n
      invariant 1 <= i <= n
      invariant m.inflight == Some(reply) && m.waiters == i
      invariant m.endpoint.posts == old(m.endpoint.posts) + 1
      invariant m.accessToken == old(m.accessToken) && m.expiryTs == old(m.expiryTs)
      modifies m, m.endpoint
    {
      m.BeginRefresh();
      i := i + 1;
    }
    r, served := m.SettleRefresh(now);
  }
}
