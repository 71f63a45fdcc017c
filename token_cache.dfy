/** The OAuth token cache of `server.js` (`getAccessToken`): two module-level
    variables, `cachedToken` and `tokenExpiry`, refreshed through a
    client-credentials exchange when the cached token is missing or within
    30 seconds of expiry. The clock readings and the exchange's reply are
    inputs. */
module TokenManager {
  import opened Wrappers
  import opened Js
  import opened Upstream

  /** A token that expires within this many milliseconds counts as expired. */
  const SafetyMarginMs: int := 30_000

  const MsPerSecond: int := 1000

  /** The two cache variables: the token (`null` at start) and its expiry
      time in milliseconds since the epoch (`0` at start). */
  datatype CacheState = CacheState(token: Option<string>, expiry: int)

  const Initial: CacheState := CacheState(None, 0)

  /** The test that decides whether the cached token is returned as is. */
  predicate IsFresh(s: CacheState, now: int) {
    Truthy(s.token) && now < s.expiry - SafetyMarginMs
  }

  /** What one call of `getAccessToken` does: the new cache, the returned
      token or the thrown error, and the outbound calls made. */
  datatype Acquisition = Acquisition(state: CacheState, result: Result<Option<string>, JsError>, calls: seq<Call>)

  /** One call of `getAccessToken` on cache `s`, with the credentials the
      exchange would send, the clock reading `now` taken on entry, the
      exchange's `reply`, and the clock reading `later` taken after it. */
  function Acquire(s: CacheState, clientId: Option<string>, clientSecret: Option<string>,
                   now: int, reply: Reply<TokenJson>, later: int): (a: Acquisition)
    // a fresh token is handed back with no exchange and no change
    ensures IsFresh(s, now) ==> a.state == s && a.result == Success(s.token) && a.calls == []
    // otherwise exactly one exchange is made, with the configured credentials
    ensures !IsFresh(s, now) ==> a.calls == [TokenRequest(clientId, clientSecret)]
    // a rejected exchange throws an Error carrying the status and body text
    ensures !IsFresh(s, now) && !reply.ok ==>
              a.result == Failure(JsError("Error", "Token error: " + IntToString(reply.status) + " " + reply.text))
    // an unparsable answer throws the parser's SyntaxError
    ensures !IsFresh(s, now) && reply.ok && reply.json.Failure? ==>
              a.result == Failure(JsError("SyntaxError", reply.json.error))
    // any failure leaves both cache fields as they were
    ensures a.result.Failure? ==> a.state == s
    // a successful exchange overwrites both fields, timed from the later clock reading
    ensures !IsFresh(s, now) && reply.ok && reply.json.Success? ==>
              a.state == CacheState(reply.json.value.accessToken, later + reply.json.value.expiresIn * MsPerSecond)
    // ... and returns the new token
    ensures !IsFresh(s, now) && reply.ok && reply.json.Success? ==>
              a.result == Success(reply.json.value.accessToken)
    // what is returned is always what is now cached
    ensures a.result.Success? ==> a.result.value == a.state.token
    // a token returned without an exchange is more than the margin away from expiry
    ensures a.result.Success? && a.calls == [] ==> now < a.state.expiry - SafetyMarginMs
  {
    if IsFresh(s, now) then
      Acquisition(s, Success(s.token), [])
    else
      var calls := [TokenRequest(clientId, clientSecret)];
      if !reply.ok then
        Acquisition(s, Failure(JsError("Error", "Token error: " + IntToString(reply.status) + " " + reply.text)), calls)
      else
        match reply.json
        case Failure(msg) => Acquisition(s, Failure(JsError("SyntaxError", msg)), calls)
        case Success(j) =>
          var s' := CacheState(j.accessToken, later + j.expiresIn * MsPerSecond);
          Acquisition(s', Success(s'.token), calls)
  }

  /** After a successful exchange of a non-empty token valid for `expiresIn`
      seconds, a later call at `now2` before the margin runs out reuses the
      token: no exchange, same token, cache unchanged. */
  lemma ExchangedTokenIsReused(s: CacheState, id: Option<string>, secret: Option<string>,
                               now: int, reply: Reply<TokenJson>, later: int,
                               now2: int, reply2: Reply<TokenJson>, later2: int)
    requires !IsFresh(s, now) && reply.ok && reply.json.Success?
    requires Truthy(reply.json.value.accessToken)
    requires now2 < later + reply.json.value.expiresIn * MsPerSecond - SafetyMarginMs
    ensures var a := Acquire(s, id, secret, now, reply, later);
            var b := Acquire(a.state, id, secret, now2, reply2, later2);
            b.calls == [] && b.state == a.state && b.result == a.result
  {
  }

  /** The cache itself: the two variables `server.js` keeps at module level. */
  class TokenCache {
    var cachedToken: Option<string>
    var tokenExpiry: int

    function State(): CacheState
      reads this
    {
      CacheState(cachedToken, tokenExpiry)
    }

    /** `let cachedToken = null; let tokenExpiry = 0;` */
    constructor ()
      ensures State() == Initial
    {
      cachedToken := None;
      tokenExpiry := 0;
    }

    /** `getAccessToken()`: returns the token to put in the Authorization
        header, or the error it throws; `calls` is the exchange it made, if
        any. */
    method GetAccessToken(clientId: Option<string>, clientSecret: Option<string>,
                          now: int, reply: Reply<TokenJson>, later: int)
      returns (token: Result<Option<string>, JsError>, calls: seq<Call>)
      modifies this
      ensures var a := Acquire(old(State()), clientId, clientSecret, now, reply, later);
              State() == a.state && token == a.result && calls == a.calls
    {
      if Truthy(cachedToken) && now < tokenExpiry - SafetyMarginMs {
        return Success(cachedToken), [];
      }
      calls := [TokenRequest(clientId, clientSecret)];
      if !reply.ok {
        var err := JsError("Error", "Token error: " + IntToString(reply.status) + " " + reply.text);
        return Failure(err), calls;
      }
      if reply.json.Failure? {
        return Failure(JsError("SyntaxError", reply.json.error)), calls;
      }
      var json := reply.json.value;
      cachedToken := json.accessToken;
      tokenExpiry := later + json.expiresIn * MsPerSecond;
      token := Success(cachedToken);
    }
  }
}
