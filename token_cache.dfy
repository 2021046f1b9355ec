/**
 * The checkout handler's access-token cache: a module-level token and its
 * expiry, reused while more than a minute of its lifetime is left and
 * otherwise refreshed by a client-credentials exchange with the store.
 */
module ShopifyToken {
  import opened Optional
  import opened Js
  import opened Http

  /** The safety margin, in milliseconds, before expiry at which a cached token is no longer used. */
  const RefreshMargin := 60000

  /** The JSON of a successful exchange: `{access_token, expires_in}` (seconds). */
  datatype Grant = Grant(accessToken: JsValue, expiresIn: int)

  /** The exchange's reply; `grant` is `None` when its body is not JSON. */
  datatype TokenReply = TokenReply(status: int, text: string, grant: Option<Grant>)

  /** The cache test: a truthy token whose expiry is more than the margin away from `now`. */
  predicate IsFresh(token: JsValue, expiresAt: int, now: int) {
    Truthy(token) && now < expiresAt - RefreshMargin
  }

  /** A token granted for a minute or less is never reused: every later call refreshes again. */
  lemma ShortGrantIsNeverReused(g: Grant, refreshedAt: int, now: int)
    requires g.expiresIn <= 60 && refreshedAt <= now
    ensures !IsFresh(g.accessToken, refreshedAt + g.expiresIn * 1000, now)
  {
  }

  class TokenCache {
    var cachedToken: JsValue
    var expiresAt: int

    /** The state at process start: no token, expiry 0. */
    constructor ()
      ensures cachedToken == Null && expiresAt == 0
      ensures !Fresh(0)
    {
      cachedToken := Null;
      expiresAt := 0;
    }

    predicate Fresh(now: int)
      reads this
    {
      IsFresh(cachedToken, expiresAt, now)
    }

    /**
     * `getShopifyToken`. `now` is the clock read by the cache test and
     * `refreshedAt` the one read after the exchange; `reply` answers the
     * exchange when one is made. `None` stands for the thrown error.
     */
    method GetToken(now: int, refreshedAt: int, reply: TokenReply) returns (token: Option<JsValue>, trace: seq<Effect>)
      modifies this
      ensures old(Fresh(now)) ==> token == Some(cachedToken) && trace == [] && unchanged(this)
      ensures !old(Fresh(now)) ==> trace == [RequestToken]
      ensures !old(Fresh(now)) && IsOk(reply.status) && reply.grant.Some? ==>
                token == Some(reply.grant.value.accessToken)
                && cachedToken == reply.grant.value.accessToken
                && expiresAt == refreshedAt + reply.grant.value.expiresIn * 1000
      ensures !old(Fresh(now)) && !(IsOk(reply.status) && reply.grant.Some?) ==>
                token == None && unchanged(this)
    {
      if Fresh(now) {
        return Some(cachedToken), [];
      }
      trace := [RequestToken];
      if !IsOk(reply.status) || reply.grant.None? {
        return None, trace;
      }
      cachedToken := reply.grant.value.accessToken;
      expiresAt := refreshedAt + reply.grant.value.expiresIn * 1000;
      token := Some(cachedToken);
    }
  }

  /**
   * Two consecutive requests on one cache, the first finding it stale and
   * refreshing it. The second is served from the cache, with no call and
   * the same token, exactly while the granted token is truthy and `later`
   * is before its announced expiry minus the margin; a grant of a minute
   * or less is never served again.
   */
  method RefreshThenAskAgain(cache: TokenCache, now: int, refreshedAt: int, reply: TokenReply,
                             later: int, laterRefreshedAt: int, laterReply: TokenReply)
    returns (first: Option<JsValue>, second: Option<JsValue>, laterCalls: seq<Effect>)
    requires !cache.Fresh(now) && IsOk(reply.status) && reply.grant.Some?
    modifies cache
    ensures first == Some(reply.grant.value.accessToken)
    ensures laterCalls == [] <==>
              Truthy(reply.grant.value.accessToken)
              && later < refreshedAt + reply.grant.value.expiresIn * 1000 - RefreshMargin
    ensures laterCalls == [] ==> second == first
    ensures laterCalls != [] ==> laterCalls == [RequestToken]
    ensures reply.grant.value.expiresIn <= 60 && refreshedAt <= later ==> laterCalls == [RequestToken]
  {
    var calls;
    first, calls := cache.GetToken(now, refreshedAt, reply);
    second, laterCalls := cache.GetToken(later, laterRefreshedAt, laterReply);
  }
}
