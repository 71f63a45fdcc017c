/** What the proxy sends to and receives from the flight-data service, with
    `fetch` replaced by an injected reply and a record of the calls made. */
module Upstream {
  import opened Wrappers

  /** The outcome of one `fetch`: `res.ok`, `res.status`, the body as text
      (`res.text()`), and the body parsed as JSON (`res.json()`), where
      `Failure(msg)` is the message of the `SyntaxError` parsing throws. */
  datatype Reply<P> = Reply(ok: bool, status: int, text: string, json: Result<P, string>)

  /** The fields of the token endpoint's JSON answer the proxy reads:
      `access_token` and `expires_in` (seconds). */
  datatype TokenJson = TokenJson(accessToken: Option<string>, expiresIn: int)

  /** An outbound request: a client-credentials token exchange, or a
      flight-offers search with its query parameters, in order, and the
      bearer token attached to it. */
  datatype Call =
    | TokenRequest(clientId: Option<string>, clientSecret: Option<string>)
    | SearchRequest(params: seq<(string, string)>, bearer: Option<string>)
}
