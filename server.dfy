/** The stand-alone HTTP server of `server.js`: the query forwarding of
    `proxyFlightOffers` and the router's choice of response. The HTTP
    listener, headers and serialisation are outside the model; a request is
    its method, path and parsed query, a response its status and JSON body. */
module Server {
  import opened Wrappers
  import opened Js
  import opened Upstream
  import opened TokenManager

  // ---------------------------------------------------------------------
  // Query values and URL search parameters

  /** A value of the query object `url.parse(..., true)` produces: absent,
      one string, or the strings of a repeated key. */
  datatype QueryValue = Undefined | Str(s: string) | Many(values: seq<string>)

  type Entry = (string, QueryValue)
  type Param = (string, string)

  /** The entries of a JavaScript object have pairwise different keys. */
  predicate DistinctKeys<V>(ps: seq<(string, V)>) {
    forall i, j :: 0 <= i < j < |ps| ==> ps[i].0 != ps[j].0
  }

  function Keys<V(==)>(ps: seq<(string, V)>): set<string> {
    set p | p in ps :: p.0
  }

  function Join(vs: seq<string>, sep: string): string {
    if vs == [] then "" else if |vs| == 1 then vs[0] else vs[0] + sep + Join(vs[1..], sep)
  }

  /** JavaScript truthiness of a query value (an array is always truthy). */
  predicate ValueTruthy(v: QueryValue) {
    match v
    case Undefined => false
    case Str(s) => s != ""
    case Many(_) => true
  }

  /** The string `searchParams.set` stores for a value: an array is joined
      with commas, as `String(array)` does. */
  function ParamText(v: QueryValue): string {
    match v
    case Undefined => "undefined"
    case Str(s) => s
    case Many(vs) => Join(vs, ",")
  }

  /** The filter of `proxyFlightOffers`: `v !== undefined && v !== ''`. */
  predicate Forwardable(v: QueryValue) {
    v != Undefined && v != Str("")
  }

  /** The key set of a concatenation is the union of the key sets. */
  lemma KeysConcat(a: seq<Param>, b: seq<Param>)
    ensures Keys(a + b) == Keys(a) + Keys(b)
  {
    forall x | x in Keys(a + b) ensures x in Keys(a) + Keys(b) {
      var p :| p in a + b && p.0 == x;
    }
    forall x | x in Keys(a) + Keys(b) ensures x in Keys(a + b) {
      if x in Keys(a) {
        var p :| p in a && p.0 == x;
        assert p in a + b;
      } else {
        var p :| p in b && p.0 == x;
        assert p in a + b;
      }
    }
  }

  /** Every pair of `ps` except those with key `k`. */
  function RemoveKey(ps: seq<Param>, k: string): (r: seq<Param>)
    ensures Keys(r) == Keys(ps) - {k}
    ensures forall p :: p in r <==> p in ps && p.0 != k
  {
    if ps == [] then []
    else
      var rest := RemoveKey(ps[1..], k);
      KeysConcat([ps[0]], ps[1..]);
      assert ps == [ps[0]] + ps[1..];
      if ps[0].0 == k then rest
      else
        KeysConcat([ps[0]], rest);
        [ps[0]] + rest
  }

  /** `URLSearchParams.set(k, v)` as section 6.2 of the WHATWG URL Standard
      defines it: the first pair named `k` gets value `v` and the other pairs
      named `k` are removed; with no such pair, `(k, v)` is appended. */
  function SetParam(ps: seq<Param>, k: string, v: string): (r: seq<Param>)
    ensures k !in Keys(ps) ==> r == ps + [(k, v)]
    ensures (k, v) in r && Keys(r) == Keys(ps) + {k}
    // the pairs with other keys are kept, and every pair named k is (k, v)
    ensures forall p :: p in r && p.0 != k <==> p in ps && p.0 != k
    ensures forall p :: p in r && p.0 == k ==> p == (k, v)
  {
    if ps == [] then [(k, v)]
    else
      KeysConcat([ps[0]], ps[1..]);
      assert ps == [ps[0]] + ps[1..];
      if ps[0].0 == k then
        var rest := RemoveKey(ps[1..], k);
        KeysConcat([(k, v)], rest);
        [(k, v)] + rest
      else
        var tail := SetParam(ps[1..], k, v);
        KeysConcat([ps[0]], tail);
        [ps[0]] + tail
  }

  /** The parameters forwarded for `entries`, in entry order: one pair per
      forwardable entry. */
  function Forwarded(entries: seq<Entry>): (r: seq<Param>)
    ensures |r| <= |entries|
    ensures Keys(r) <= Keys(entries)
  {
    if entries == [] then []
    else
      var last := entries[|entries| - 1];
      var init := entries[..|entries| - 1];
      assert Keys(entries) == Keys(init) + {last.0} by {
        assert entries == init + [last];
      }
      Forwarded(init) + (if Forwardable(last.1) then [(last.0, ParamText(last.1))] else [])
  }

  /** Forwarding commutes with concatenation: entries are forwarded in
      order, each independently of the others. */
  lemma {:induction false} ForwardedAppend(a: seq<Entry>, b: seq<Entry>)
    ensures Forwarded(a + b) == Forwarded(a) + Forwarded(b)
    decreases |b|
  {
    if b == [] {
      assert a + b == a;
    } else {
      var b' := b[..|b| - 1];
      assert (a + b)[..|a + b| - 1] == a + b';
      assert (a + b)[|a + b| - 1] == b[|b| - 1];
      ForwardedAppend(a, b');
    }
  }

  /** A pair is forwarded exactly when some entry has that key, a value that
      is neither `undefined` nor `''`, and that value's text. */
  lemma {:induction false} ForwardedExactly(entries: seq<Entry>, k: string, v: string)
    ensures (k, v) in Forwarded(entries) <==>
            exists i :: 0 <= i < |entries| && entries[i].0 == k && Forwardable(entries[i].1) && ParamText(entries[i].1) == v
  {
    if entries != [] {
      var n := |entries| - 1;
      var init := entries[..n];
      ForwardedExactly(init, k, v);
      if (k, v) in Forwarded(entries) && (k, v) !in Forwarded(init) {
        assert entries[n].0 == k && Forwardable(entries[n].1) && ParamText(entries[n].1) == v;
      }
      if i :| 0 <= i < |entries| && entries[i].0 == k && Forwardable(entries[i].1) && ParamText(entries[i].1) == v {
        if i < n {
          assert init[i] == entries[i];
        }
      }
    }
  }

  /** A forwarded value is the text of a string entry unchanged: a string
      entry is forwarded with its own value, or dropped when it is empty. */
  lemma ForwardedString(entries: seq<Entry>, i: int)
    requires 0 <= i < |entries| && entries[i].1.Str?
    ensures entries[i].1.s != "" ==> (entries[i].0, entries[i].1.s) in Forwarded(entries)
    ensures entries[i].1.s == "" && DistinctKeys(entries) ==> entries[i].0 !in Keys(Forwarded(entries))
  {
    ForwardedExactly(entries, entries[i].0, entries[i].1.s);
    if entries[i].1.s == "" && DistinctKeys(entries) && entries[i].0 in Keys(Forwarded(entries)) {
      var p :| p in Forwarded(entries) && p.0 == entries[i].0;
      ForwardedExactly(entries, p.0, p.1);
    }
  }

  /** The `forEach` loop of `proxyFlightOffers`: each entry whose value is
      neither `undefined` nor `''` is set on the URL's search parameters. */
  method ForwardQuery(entries: seq<Entry>) returns (params: seq<Param>)
    requires DistinctKeys(entries)
    ensures params == Forwarded(entries)
  {
    params := [];
    var i := 0;
    while i < |entries|
      invariant 0 <= i <= |entries|
      invariant params == Forwarded(entries[..i])
    {
      var (k, v) := entries[i];
      assert entries[..i + 1][..i] == entries[..i];
      if v != Undefined && v != Str("") {
        assert k !in Keys(entries[..i]);
        params := SetParam(params, k, ParamText(v));
      }
      i := i + 1;
    }
    assert entries[..i] == entries;
  }

  // ---------------------------------------------------------------------
  // The search call

  /** What a thrown value carries: an `Error` object, or the plain
      `{status, body}` object thrown for a rejected search. */
  datatype Thrown = Raised(error: JsError) | StatusBody(status: int, body: Json)

  /** `try { JSON.parse(text) } catch { { raw: text } }`. */
  function SearchBody(reply: Reply<Json>): Json {
    match reply.json
    case Success(j) => j
    case Failure(_) => JObject([("raw", JString(reply.text))])
  }

  /** `proxyFlightOffers(query)`: takes a token from `cache`, sends one
      search with the forwarded query, and returns the parsed body, or
      throws. `calls` is every outbound request, in order. */
  method ProxyFlightOffers(cache: TokenCache, clientId: Option<string>, clientSecret: Option<string>,
                           query: seq<Entry>, now: int, tokenReply: Reply<TokenJson>, later: int,
                           searchReply: Reply<Json>)
    returns (r: Result<Json, Thrown>, calls: seq<Call>)
    requires DistinctKeys(query)
    modifies cache
    ensures var a := Acquire(old(cache.State()), clientId, clientSecret, now, tokenReply, later);
            && cache.State() == a.state
            // a token failure propagates and no search is sent
            && (a.result.Failure? ==> r == Failure(Raised(a.result.error)) && calls == a.calls)
            // otherwise exactly one search follows, with the filtered query and the token
            && (a.result.Success? ==> calls == a.calls + [SearchRequest(Forwarded(query), a.result.value)])
            // an accepted search returns the body, parsed or wrapped as {raw: text}
            && (a.result.Success? && searchReply.ok ==> r == Success(SearchBody(searchReply)))
            // a rejected search throws {status, body}
            && (a.result.Success? && !searchReply.ok ==>
                  r == Failure(StatusBody(searchReply.status, SearchBody(searchReply))))
  {
    var token;
    token, calls := cache.GetAccessToken(clientId, clientSecret, now, tokenReply, later);
    if token.Failure? {
      return Failure(Raised(token.error)), calls;
    }
    var params := ForwardQuery(query);
    calls := calls + [SearchRequest(params, token.value)];
    var json := SearchBody(searchReply);
    if !searchReply.ok {
      return Failure(StatusBody(searchReply.status, json)), calls;
    }
    r := Success(json);
  }

  // ---------------------------------------------------------------------
  // The router

  /** The branch the router takes for a request. */
  datatype Route = Preflight | Health | MissingParams | Forward | NotFound

  /** `query[key]`: the value of the entry named `key`, or `undefined`. */
  function Lookup(query: seq<Entry>, key: string): (v: QueryValue)
    ensures key !in Keys(query) ==> v == Undefined
    ensures DistinctKeys(query) ==> forall i :: 0 <= i < |query| && query[i].0 == key ==> v == query[i].1
  {
    if query == [] then Undefined
    else if query[0].0 == key then query[0].1
    else
      var v := Lookup(query[1..], key);
      assert forall i :: 1 <= i < |query| ==> query[i] == query[1..][i - 1];
      v
  }

  /** The four parameters `/api/flight-offers` insists on, each truthy. */
  predicate HasRequired(query: seq<Entry>) {
    && ValueTruthy(Lookup(query, "originLocationCode"))
    && ValueTruthy(Lookup(query, "destinationLocationCode"))
    && ValueTruthy(Lookup(query, "departureDate"))
    && ValueTruthy(Lookup(query, "adults"))
  }

  /** The router's choice of branch from the method, path and query. */
  function RouteOf(verb: string, pathname: string, query: seq<Entry>): (r: Route)
    ensures r == Preflight <==> verb == "OPTIONS"
    ensures r == Health <==> verb != "OPTIONS" && pathname == "/api/health"
    ensures r == MissingParams <==> verb != "OPTIONS" && pathname == "/api/flight-offers" && !HasRequired(query)
    ensures r == Forward <==> verb != "OPTIONS" && pathname == "/api/flight-offers" && HasRequired(query)
    ensures r == NotFound <==> verb != "OPTIONS" && pathname != "/api/health" && pathname != "/api/flight-offers"
  {
    if verb == "OPTIONS" then Preflight
    else if pathname == "/api/health" then Health
    else if pathname == "/api/flight-offers" then
      if HasRequired(query) then Forward else MissingParams
    else NotFound
  }

  /** `err?.status || 500`. */
  function ErrorStatus(t: Thrown): (s: int)
    ensures s != 0
    ensures t.StatusBody? && t.status != 0 ==> s == t.status
    ensures t.Raised? || t.status == 0 ==> s == 500
  {
    match t
    case Raised(_) => 500
    case StatusBody(status, _) => if status != 0 then status else 500
  }

  /** `err?.body || String(err)`: the thrown body when truthy, else the
      error's text (`"[object Object]"` for a plain object). */
  function ErrorDetail(t: Thrown): (d: Json)
    ensures t.StatusBody? && JsonTruthy(t.body) ==> d == t.body
    ensures t.StatusBody? && !JsonTruthy(t.body) ==> d == JString("[object Object]")
    ensures t.Raised? ==> d == JString(ErrorToString(t.error))
  {
    match t
    case Raised(e) => JString(ErrorToString(e))
    case StatusBody(_, body) => if JsonTruthy(body) then body else JString("[object Object]")
  }

  /** A response: its status and its JSON body (none for a preflight). */
  datatype Response = Response(status: int, body: Option<Json>)

  function ErrorJson(error: string): Json {
    JObject([("error", JString(error))])
  }

  /** The `catch` branch of the router. */
  function ErrorResponse(t: Thrown): Response {
    Response(ErrorStatus(t), Some(JObject([("error", JString("Proxy error")), ("detail", ErrorDetail(t))])))
  }

  function HealthBody(amadeusEnv: string): Json {
    JObject([("ok", JBool(true)), ("env", JString(amadeusEnv))])
  }

  /** A request as the router sees it after `url.parse(req.url, true)`. */
  datatype Request = Request(verb: string, pathname: string, query: seq<Entry>)

  /** The configuration `server.js` reads from the environment. */
  datatype Config = Config(apiKey: Option<string>, apiSecret: Option<string>, amadeusEnv: string)

  /** The request handler passed to `http.createServer`. */
  method Serve(cache: TokenCache, config: Config, req: Request,
               now: int, tokenReply: Reply<TokenJson>, later: int, searchReply: Reply<Json>)
    returns (resp: Response, calls: seq<Call>)
    requires DistinctKeys(req.query)
    modifies cache
    ensures var route := RouteOf(req.verb, req.pathname, req.query);
            && (route != Forward ==> calls == [] && cache.State() == old(cache.State()))
            && (route == Preflight ==> resp == Response(204, None))
            && (route == Health ==> resp == Response(200, Some(HealthBody(config.amadeusEnv))))
            && (route == MissingParams ==> resp == Response(400, Some(ErrorJson("Missing required parameters."))))
            && (route == NotFound ==> resp == Response(404, Some(ErrorJson("NOT_FOUND"))))
    ensures RouteOf(req.verb, req.pathname, req.query) == Forward ==>
            var a := Acquire(old(cache.State()), config.apiKey, config.apiSecret, now, tokenReply, later);
            && cache.State() == a.state
            && (a.result.Failure? ==> resp == ErrorResponse(Raised(a.result.error)) && calls == a.calls)
            && (a.result.Success? ==> calls == a.calls + [SearchRequest(Forwarded(req.query), a.result.value)])
            && (a.result.Success? && searchReply.ok ==> resp == Response(200, Some(SearchBody(searchReply))))
            && (a.result.Success? && !searchReply.ok ==>
                  resp == ErrorResponse(StatusBody(searchReply.status, SearchBody(searchReply))))
  {
    calls := [];
    if req.verb == "OPTIONS" {
      return Response(204, None), calls;
    }
    if req.pathname == "/api/health" {
      return Response(200, Some(HealthBody(config.amadeusEnv))), calls;
    }
    if req.pathname == "/api/flight-offers" {
      if !HasRequired(req.query) {
        return Response(400, Some(ErrorJson("Missing required parameters."))), calls;
      }
      var r;
      r, calls := ProxyFlightOffers(cache, config.apiKey, config.apiSecret, req.query, now, tokenReply, later, searchReply);
      if r.Success? {
        resp := Response(200, Some(r.value));
      } else {
        resp := ErrorResponse(r.error);
      }
      return;
    }
    resp := Response(404, Some(ErrorJson("NOT_FOUND")));
  }

  /** With a fresh cached token the server answers a search without any
      token exchange: the only outbound call is the search itself. */
  lemma FreshTokenMeansOneCall(s: CacheState, config: Config, query: seq<Entry>,
                               now: int, tokenReply: Reply<TokenJson>, later: int)
    requires IsFresh(s, now)
    ensures var a := Acquire(s, config.apiKey, config.apiSecret, now, tokenReply, later);
            a.calls + [SearchRequest(Forwarded(query), a.result.value)] == [SearchRequest(Forwarded(query), s.token)]
  {
  }
}
