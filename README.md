# Flight-offers proxy: a Dafny model

This project models the logic of a small proxy in front of the Amadeus
flight-offers API. The model has two entry points:

- `server.js` is a stand-alone Node HTTP server. It keeps a module-level
  OAuth token cache (`cachedToken`, `tokenExpiry`) with a 30-second safety
  margin. It forwards `/api/flight-offers` queries upstream, dropping entries
  whose value is `undefined` or `''`, and answers health checks and CORS
  preflights.
- `api/flights.js` is a serverless handler. It validates `origin`,
  `destination`, `depart` and `ret`, fetches a token with no cache, and
  builds the upstream query: upper-cased codes and cabin class, at least
  one adult, and fixed `currencyCode`, `max` and `nonStop`. It then trims
  every offer to the fields the front end renders (`mapAmadeusToLight`).

Every `fetch` is replaced by an injected reply (`Upstream.Reply`). The reply
holds `ok`, `status`, the body text, and the body parsed as JSON or the
parser's error message. Every outbound request is recorded in a sequence of
`Upstream.Call`, so "no token exchange" and "no upstream call" are
statements about that sequence. `Date.now()` is passed in as integers: the
reading on entry to `getAccessToken` and the reading after the exchange.
Configuration (`process.env`) is passed in as a parameter.

Files and modules:

- `wrappers.dfy` (Wrappers): `Option` for `undefined`/`null`, `Result` for
  thrown errors.
- `js.dfy` (Js): JavaScript truthiness, parsed JSON values,
  `Error.prototype.toString`, ASCII `toUpperCase`, and `String(n)` for
  integers. `String(n)` has a reference decimal reader and a round-trip
  lemma.
- `upstream.dfy` (Upstream): the injected replies and the outbound-call log.
- `token_cache.dfy` (TokenManager): `getAccessToken` in two forms. The pure
  function `Acquire` is its specification. The class `TokenCache` holds the
  two cache fields, and its method `GetAccessToken` is proved against
  `Acquire`.
- `server.dfy` (Server): the `forEach` loop that copies query entries onto
  the URL (`ForwardQuery`), proved against the declarative filter
  `Forwarded`. It also holds `proxyFlightOffers`, the router's branch choice
  and its error shaping, and the whole request handler `Serve`.
- `flights.dfy` (Flights): the raw and trimmed offer types,
  `mapAmadeusToLight`, validation, the upstream query, `getToken` and
  `handler`.

Behaviour a reader might expect that the code does not have:

- `api/flights.js` requires `ret` (line 57): a one-way search is rejected
  with 400.
- Neither file checks the codes against a three-letter pattern. A
  destination `LON12` is forwarded unchanged (`Flights.CodesAreNotPatternChecked`).
- `server.js` also requires `adults` (line 101). It never checks that its
  credentials are configured, and sends whatever the environment holds.
- The new expiry is computed from the clock reading taken after the exchange
  (`server.js:43`), not the one taken on entry.
- `api/flights.js` keeps no token cache: every handled search makes one
  token exchange.
- In `api/flights.js` a rejected or unparsable token exchange is caught and
  answered as 500 `Proxy failed`; the token endpoint's status is not passed
  through. Only a rejected search passes its own status through.
- The cabin class is not checked against {ECONOMY, PREMIUM_ECONOMY,
  BUSINESS, FIRST}; it is only upper-cased.

## Model

| member | source | states |
|---|---|---|
| `TokenManager.Acquire` | server.js:21-45 | A fresh token (non-empty and `now < tokenExpiry - 30000`) is returned with no exchange and the cache unchanged. Otherwise exactly one exchange is made. A rejected exchange throws `Token error: <status> <text>`. An unparsable answer throws a SyntaxError. Every failure leaves both fields unchanged. An accepted, parsed exchange returns `access_token`, sets the token to `access_token` and the expiry to the later clock reading plus `expires_in*1000`. The returned value is always the new cached token. A token returned without an exchange is more than 30 s from expiry. |
| `TokenManager.ExchangedTokenIsReused` | server.js:23-44 | After a successful exchange of a non-empty token, a call made before the new expiry minus 30 s makes no exchange, returns the same token and leaves the cache unchanged. |
| `TokenManager.TokenCache.constructor` | server.js:17-18 | The cache starts with no token and expiry 0. |
| `TokenManager.TokenCache.GetAccessToken` | server.js:21-45 | The new fields, the returned token or error, and the calls made are exactly those `Acquire` gives for the old fields. |
| `Js.ErrorToString` | server.js:112 | `String(err)` of an Error is its name alone when the message is empty, else exactly the name, then `": "`, then the message. |
| `Js.MessageOrString` | api/flights.js:91 | The text of `err.message or err` is the message when it is non-empty, else the error's name. |
| `Js.Upper` | api/flights.js:65-70 | Same length; each ASCII lower-case letter becomes its capital, every other character is kept; the result has no lower-case letter. |
| `Js.UpperIdempotent` | api/flights.js:65-70 | Upper-casing twice equals upper-casing once. |
| `Js.NatToString` | api/flights.js:69 | `String(n)` of a non-negative integer is a non-empty string of digits with no leading zero, and is `"0"` exactly for 0. |
| `Js.IntToString` | server.js:39 | `String(n)` is the decimal text of `n` for `n >= 0`, and `-` followed by the decimal text of `-n` for `n < 0`. |
| `Js.ParseNatToString` | api/flights.js:69 | Reading the decimal text of `n` back gives `n`. |
| `Server.RemoveKey` | server.js:63 | The pairs left after dropping key `k` are exactly the old pairs whose key is not `k`. |
| `Server.SetParam` | server.js:63 | `searchParams.set(k, v)` appends `(k, v)` when `k` is new. Otherwise the pairs with other keys are kept, and every pair named `k` is `(k, v)`. `(k, v)` is always present, and the key set grows by `k` only. |
| `Server.Forwarded` | server.js:62-64 | The forwarded parameters number at most the entries, and use only the entries' keys. |
| `Server.ForwardedAppend` | server.js:62-64 | Forwarding a concatenation gives the concatenation of the forwarded parts, so entry order is kept. |
| `Server.ForwardedExactly` | server.js:62-64 | A pair `(k, v)` is forwarded if and only if some entry has key `k`, a value that is neither `undefined` nor `''`, and text `v`. |
| `Server.ForwardedString` | server.js:62-64 | A non-empty string entry is forwarded with its value unchanged. With distinct keys, an empty string entry's key is absent from the forwarded parameters. |
| `Server.ForwardQuery` | server.js:62-64 | The `forEach` loop that calls `searchParams.set` produces exactly `Forwarded(entries)`. |
| `Server.ProxyFlightOffers` | server.js:59-76 | The cache changes as `Acquire` says. A token failure is rethrown and no search is sent. Otherwise exactly one search follows, carrying the filtered query and the token. An accepted search returns the body: the parsed JSON, or `{raw: text}` when parsing fails. A rejected search throws `{status, body}`. |
| `Server.Lookup` | server.js:101 | `query[key]` is `undefined` for an absent key, and the entry's value when keys are distinct. |
| `Server.RouteOf` | server.js:83-109 | Preflight iff the method is OPTIONS (any path). Otherwise: health iff the path is `/api/health`; missing-parameters iff the path is `/api/flight-offers` and one of the four required values is falsy; forward iff the path is `/api/flight-offers` and all four are truthy; not-found for every other path. |
| `Server.ErrorStatus` | server.js:111 | The error status is `err.status` when it is non-zero, else 500. An Error object always gives 500, and the status is never 0. |
| `Server.ErrorDetail` | server.js:112 | The detail is the thrown body when it is truthy, `"[object Object]"` for a falsy body, and `String(err)` for an Error. |
| `Server.Serve` | server.js:79-114 | OPTIONS gives 204 with no body, health gives 200 with `{ok: true, env}`, a missing parameter gives 400, and an unknown path gives 404. None of these makes a call or touches the cache. A forwarded request answers 200 with the proxied body, or the error response with status `err.status`, or 500 when that is falsy. |
| `Server.FreshTokenMeansOneCall` | server.js:23-68 | With a fresh cached token, forwarding makes the search its only outbound call, carrying the cached token. |
| `Flights.PriceTotal` | api/flights.js:38 | Gives `grandTotal` if truthy, else `total` if truthy, else null. It is never the empty string. |
| `Flights.ShapeSegment` | api/flights.js:43-48 | The output segment's `carrierCode`, `number`, `departure` and `arrival` equal the input's, and it has no other field. |
| `Flights.ShapeItinerary` | api/flights.js:41-49 | `duration` is copied, or is `''` when absent. The segment count and order are preserved, zero when absent, each segment shaped. |
| `Flights.ShapeOffer` | api/flights.js:36-50 | The price is `PriceTotal`. `validatingAirlineCodes` is copied, or is `[]` when absent. The itinerary count and order are preserved, zero when absent. |
| `Flights.MapAmadeusToLight` | api/flights.js:34-51 | The number and order of offers are preserved, each offer shaped. |
| `Flights.ShapeEmbedItinerary` | api/flights.js:41-49 | Shaping the raw itinerary that carries exactly a trimmed itinerary's fields gives that itinerary back. |
| `Flights.ShapeEmbedOffer` | api/flights.js:36-50 | Shaping the raw offer that carries exactly a trimmed offer's fields gives it back, when its price is not `''`. |
| `Flights.ShapeEmbed` | api/flights.js:34-51 | For trimmed offers with no empty-string price, reading them back as raw offers and trimming again gives them back. |
| `Flights.ShapeIdempotent` | api/flights.js:34-51 | Trimming an already trimmed response, read back as raw offers, changes nothing. |
| `Flights.ExtractOffers` | api/flights.js:86 | The offers are `raw.data` when it is an array, else `[]`. |
| `Flights.AdultsCount` | api/flights.js:69 | The adult count is at least 1. It is the given number when that is at least 1, and 1 when the number is absent or below 1. |
| `Flights.BuildQuery` | api/flights.js:63-74 | The origin, destination and travel class are upper-cased, with the class defaulting to ECONOMY. The dates pass through unchanged. `adults` is `String(n)` of the count, which is at least 1: canonical digits that read back to it. `currencyCode=USD`, `max=20`, `nonStop=false`. |
| `Flights.GetToken` | api/flights.js:11-32 | A missing or empty client id or secret fails with no exchange. Otherwise exactly one exchange is made. A rejection throws `Amadeus token error: <text>` and a parse failure throws a SyntaxError. A token is returned iff the exchange was accepted and parsed, and it is `access_token`. |
| `Flights.Handle` | api/flights.js:53-93 | A missing parameter gives 400 with no call, and missing credentials give 500 with no call. There are at most two calls, the token request first. The search is sent iff a token was obtained, with the built query and that token. A rejected search passes its status and text through. A failed token exchange is caught as 500 `Proxy failed` with the error's message, and its call log is the token request it made. An accepted search whose answer does not parse is caught the same way. Offers appear iff the search was accepted and parsed, with status 200 and the trimmed `data`. |
| `Flights.NoDataMeansNoOffers` | api/flights.js:86-89 | A parsed answer whose `data` is missing or not an array gives 200 with an empty offer list. |
| `Flights.PriceExamples` | api/flights.js:38 | A grand total of `"412.50"` with no total gives `"412.50"`; neither gives null; an empty grand total falls back to the total. |
| `Flights.EndToEndQuery` | api/flights.js:64-74 | `jfk`/`LHR`/2025-06-01/2025-06-10/2 adults/`business` builds JFK, LHR, the same dates, `"2"`, BUSINESS, USD, 20, false. |
| `Flights.CodesAreNotPatternChecked` | api/flights.js:57-66 | `NYC` to `LON12` passes validation, and `LON12` is forwarded unchanged. |

## Left out

- HTTP plumbing is not modelled: `http.createServer`, `listen`, `res.writeHead`/`res.end`, Vercel's `res.status().json()` and all header contents (CORS included). A response is its status and body.
- A `fetch` that rejects (network failure) is not modelled; a reply is always received.
- `process.env`, `AM_BASE` and `HOST` are not modelled: configuration is a parameter, and upstream URLs are not represented.
- `Date.now()` is not modelled: the two clock readings of `getAccessToken` are integer inputs.
- `JSON.parse`/`JSON.stringify`, `URL`/`URLSearchParams` encoding and `url.parse` are not modelled. A request arrives already parsed into method, path and query entries. A parse result is given as a value or an error message.
- `Number(...)` coercion is not modelled: `adults` in `api/flights.js` is taken as an already parsed integer or absent, and the `NaN` case is not represented.
- `expires_in` is taken as an integer; a missing or fractional `expires_in` (giving `NaN` or a fractional expiry) is not represented.
- `toUpperCase` is modelled on ASCII letters only.
- The unsynchronised race on the module-level token cache between overlapping requests is concurrency, and is not modelled.
- `api/health.js` is not modelled: it only reports the runtime version, the current time, whether the credentials are set, and the configured `AMADEUS_HOST` value.
- `Server.ForwardQuery`, `Server.ProxyFlightOffers` and `Server.Serve` require the query entries to have distinct keys, as the entries of any JavaScript object do.
- In `api/flights.js`, query values are modelled as strings; an array value from a repeated key is not represented.
- A `null` element of `data` is not represented: each element is a `RawOffer`. On a `null` element `o.price` throws, giving a 500. A number, string or boolean element reads every field as `undefined`, and shapes as `RawOffer(None, None, None, None)` does.
- A truthy `validatingAirlineCodes` that is not an array is not represented. `||` copies it as is; in the model the field is either absent or a list of strings.
- A `null` itinerary or segment is not represented; reading its fields would throw inside `mapAmadeusToLight`, giving a 500. The same goes for a truthy `itineraries` or `segments` that is not an array: an optional list is either absent or a list.
- A token answer that parses to JSON `null` is not represented. There, `json.access_token` (`server.js:42`) and `j.access_token` (`api/flights.js:31`) throw a TypeError. Every parsed token answer is a `TokenJson` object.
- JSON numbers are decimal values `mantissa * 10^exponent`; overflow to `Infinity` is not represented.
- `send`'s choice between a string payload and `JSON.stringify` is not modelled: a response body is a JSON value, not bytes. A search answer that parses to a JSON string is therefore sent by `server.js` unquoted, and the model does not show that.
