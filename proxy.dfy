/**
 * The request handler (src/core/proxy.js). A request is dispatched on its
 * method, its parameters are read from the query (GET, HEAD) or from the
 * JSON body (POST), it is validated, the upstream headers are layered, the
 * edge cache is consulted, the upstream is fetched, and its response is
 * normalised, annotated and possibly cached.
 *
 * `Handle` states the whole decision as a function of the request, the
 * configuration, the cache contents, the upstream's answer and the clock;
 * `HandleRequest` is the step-by-step handler, proved to agree with it.
 */
module Proxy {
  import opened Wrappers
  import opened Strings
  import opened Http
  import opened Mime
  import opened Security
  import opened Channels
  import opened BrowserHeaders
  import opened Responses

  // ---------------------------------------------------------------- requests and parameters

  /**
   * A JSON value as the handler reads it. A number is given by the text
   * `String(n)` yields, and so is an object or an array (`JComposite`).
   */
  datatype JsonValue = JNull | JBool(b: bool) | JNumber(text: string) | JString(s: string) | JComposite(text: string)

  /** JavaScript truthiness of a JSON value; JSON has no `NaN`, and `-0` prints as `0`. */
  predicate JsTruthy(v: JsonValue) {
    match v
    case JNull => false
    case JBool(b) => b
    case JNumber(text) => text != "0"
    case JString(s) => s != ""
    case JComposite(_) => true
  }

  /** `String(v)`. */
  function JsString(v: JsonValue): string {
    match v
    case JNull => "null"
    case JBool(b) => if b then "true" else "false"
    case JNumber(text) => text
    case JString(s) => s
    case JComposite(text) => text
  }

  /**
   * The fields of a JSON request body the handler reads; `None` is a field
   * that is absent. `headers` holds the entries of an object-valued field,
   * each value given as the text `headers.set` converts it to, and is `None`
   * when the field is absent, `null` or not an object.
   */
  datatype PostBody = PostBody(
    url: Option<JsonValue>,
    disposition: Option<JsonValue>,
    cache: Option<JsonValue>,
    ttl: Option<JsonValue>,
    headers: Option<Entries>)

  /**
   * An incoming request. `body` is the parsed JSON body: `None` when
   * `request.json()` throws or the body is `null`; any other body that is
   * not an object is a `PostBody` with every field absent.
   */
  datatype Request = Request(verb: string, url: RequestUrl, headers: CanonicalHeaderMap, body: Option<PostBody>)

  /**
   * The parameters of one proxied fetch. `targetUrl` is the value as read:
   * a query string, or whatever the body's truthy `url` holds (an array
   * stays an array); `null` is `None`.
   */
  datatype Params = Params(
    targetUrl: Option<JsonValue>,
    disposition: string,
    cacheEnabled: bool,
    cacheTtlOverride: Option<string>,
    extraHeaders: Entries)

  /** The parameters when the body cannot be read. */
  const DEFAULT_PARAMS := Params(None, "attachment", true, None, [])

  /** Whether the target passes the `!targetUrl` test: present and truthy. */
  predicate TargetGiven(t: Option<JsonValue>) {
    t.Some? && JsTruthy(t.value)
  }

  /** The text `new URL` and `fetch` make of a present target. */
  function TargetText(t: Option<JsonValue>): string
    requires t.Some?
  {
    JsString(t.value)
  }

  /** JavaScript truthiness of a value that is a string or `null`. */
  predicate Truthy(s: Option<string>) {
    s.Some? && s.value != ""
  }

  /** `s || fallback` for a string or `null`. */
  function OrElse(s: Option<string>, fallback: string): (r: string)
    ensures Truthy(s) ==> r == s.value
    ensures !Truthy(s) ==> r == fallback
  {
    if Truthy(s) then s.value else fallback
  }

  lemma LowerAttachment() ensures Lower("attachment") == "attachment" {}

  /**
   * `parseGetParams(url)`: the first `url`, `disposition`, `cache` and `ttl`
   * query parameters; the disposition is lower-cased and defaults to
   * `attachment`; no extra headers.
   */
  function ParseGetParams(url: RequestUrl): (p: Params)
    ensures FirstValue(url.query, "url").None? ==> p.targetUrl.None?
    ensures FirstValue(url.query, "url").Some? ==> p.targetUrl == Some(JString(FirstValue(url.query, "url").value))
    ensures TargetGiven(p.targetUrl) <==> Truthy(FirstValue(url.query, "url"))
    ensures Truthy(FirstValue(url.query, "disposition")) ==>
      p.disposition == Lower(FirstValue(url.query, "disposition").value)
    ensures !Truthy(FirstValue(url.query, "disposition")) ==> p.disposition == "attachment"
    ensures FinalDisposition(p.disposition) == "inline" <==>
      FirstValue(url.query, "disposition").Some? && Lower(FirstValue(url.query, "disposition").value) == "inline"
    ensures !p.cacheEnabled <==> FirstValue(url.query, "cache") == Some("0")
    ensures p.cacheTtlOverride == FirstValue(url.query, "ttl")
    ensures p.extraHeaders == []
  {
    LowerAttachment();
    Params(
      if FirstValue(url.query, "url").Some? then Some(JString(FirstValue(url.query, "url").value)) else None,
      Lower(OrElse(FirstValue(url.query, "disposition"), "attachment")),
      OrElse(FirstValue(url.query, "cache"), "1") != "0",
      FirstValue(url.query, "ttl"),
      [])
  }

  /**
   * Lower-casing a truthy `disposition` that is not a string throws inside
   * the `try`, so the defaults are used.
   */
  predicate DispositionThrows(b: PostBody) {
    b.disposition.Some? && JsTruthy(b.disposition.value) && !b.disposition.value.JString?
  }

  /** The disposition a body asks for, when it names one as a string. */
  predicate AsksInline(body: Option<PostBody>) {
    body.Some? && body.value.disposition.Some? && body.value.disposition.value.JString?
    && Lower(body.value.disposition.value.s) == "inline"
  }

  /**
   * `parsePostBody(request)`: a truthy `url` of any type, kept as it is, the lower-cased `disposition` defaulting to `attachment`,
   * caching unless `cache` is `false`, a `ttl` that is neither absent nor
   * `null` as text, and the body's `headers`; the defaults when the body
   * cannot be read or lower-casing the disposition throws.
   */
  function ParsePostBody(body: Option<PostBody>): (p: Params)
    ensures body.None? ==> p == DEFAULT_PARAMS
    ensures body.Some? && DispositionThrows(body.value) ==> p == DEFAULT_PARAMS
    ensures body.Some? && !DispositionThrows(body.value) ==>
      var b := body.value;
      && p.targetUrl == (if b.url.Some? && JsTruthy(b.url.value) then b.url else None)
      && (TargetGiven(p.targetUrl) <==> b.url.Some? && JsTruthy(b.url.value))
      && (b.disposition.Some? && JsTruthy(b.disposition.value) ==> p.disposition == Lower(b.disposition.value.s))
      && (b.disposition.None? || !JsTruthy(b.disposition.value) ==> p.disposition == "attachment")
      && (!p.cacheEnabled <==> b.cache == Some(JBool(false)))
      && p.cacheTtlOverride == (if b.ttl.Some? && !b.ttl.value.JNull? then Some(JsString(b.ttl.value)) else None)
      && p.extraHeaders == b.headers.GetOr([])
    ensures FinalDisposition(p.disposition) == "inline" <==> AsksInline(body)
  {
    LowerAttachment();
    match body
    case None => DEFAULT_PARAMS
    case Some(b) =>
      if DispositionThrows(b) then DEFAULT_PARAMS
      else
        Params(
          if b.url.Some? && JsTruthy(b.url.value) then b.url else None,
          Lower(if b.disposition.Some? && JsTruthy(b.disposition.value) then b.disposition.value.s else "attachment"),
          b.cache != Some(JBool(false)),
          if b.ttl.Some? && !b.ttl.value.JNull? then Some(JsString(b.ttl.value)) else None,
          b.headers.GetOr([]))
  }

  /** The parameters of a request: from the body for POST, from the query otherwise. */
  function ParamsOf(req: Request): Params {
    if req.verb == "POST" then ParsePostBody(req.body) else ParseGetParams(req.url)
  }

  // ---------------------------------------------------------------- configuration

  /** The static configuration: the allow-lists, the channel table and the URL parser. */
  datatype Config = Config(allowedHosts: seq<string>, allowedReferrers: seq<string>, rules: seq<Channel>, urls: UrlSyntax)

  /** The configuration the proxy ships with. */
  function ShippedConfig(urls: UrlSyntax): Config {
    Config(ALLOWED_HOSTS, ALLOWED_REFERRERS, CHANNEL_RULES, urls)
  }

  // ---------------------------------------------------------------- dispatch and validation

  /** What the checks before any upstream or cache work decide. */
  datatype Gate =
    | Preflight
    | NotAllowed
    | Rejected(status: int, message: string)
    | Admitted(target: string, params: Params)

  predicate SupportedMethod(m: string) {
    m == "GET" || m == "POST" || m == "HEAD"
  }

  /**
   * Lines 50-59 of the handler: OPTIONS is answered at once, other unknown
   * methods are refused, then a missing target (400), a refused host (403)
   * and a refused referrer (403) are checked in that order.
   */
  function Admit(cfg: Config, req: Request): (g: Gate)
    ensures g == Preflight <==> req.verb == "OPTIONS"
    ensures g == NotAllowed <==> req.verb != "OPTIONS" && !SupportedMethod(req.verb)
    ensures g.Rejected? && g.status == 400 <==>
      SupportedMethod(req.verb) && !TargetGiven(ParamsOf(req).targetUrl)
    ensures g == Rejected(403, "Host not allowed") <==>
      SupportedMethod(req.verb) && TargetGiven(ParamsOf(req).targetUrl)
      && !IsHostAllowed(cfg.urls, TargetText(ParamsOf(req).targetUrl), cfg.allowedHosts)
    ensures g == Rejected(403, "Referrer not allowed") <==>
      SupportedMethod(req.verb) && TargetGiven(ParamsOf(req).targetUrl)
      && IsHostAllowed(cfg.urls, TargetText(ParamsOf(req).targetUrl), cfg.allowedHosts)
      && !IsReferrerAllowed(cfg.urls, Lookup(req.headers, "Referer"), cfg.allowedReferrers)
    ensures g.Admitted? <==>
      SupportedMethod(req.verb) && TargetGiven(ParamsOf(req).targetUrl)
      && IsHostAllowed(cfg.urls, TargetText(ParamsOf(req).targetUrl), cfg.allowedHosts)
      && IsReferrerAllowed(cfg.urls, Lookup(req.headers, "Referer"), cfg.allowedReferrers)
    ensures g.Admitted? ==> g.target == TargetText(ParamsOf(req).targetUrl) && g.params == ParamsOf(req)
  {
    if req.verb == "OPTIONS" then Preflight
    else if !SupportedMethod(req.verb) then NotAllowed
    else
      var p := ParamsOf(req);
      if !TargetGiven(p.targetUrl) then Rejected(400, "Missing url parameter")
      else if !IsHostAllowed(cfg.urls, TargetText(p.targetUrl), cfg.allowedHosts) then Rejected(403, "Host not allowed")
      else if !IsReferrerAllowed(cfg.urls, Lookup(req.headers, "Referer"), cfg.allowedReferrers) then Rejected(403, "Referrer not allowed")
      else Admitted(TargetText(p.targetUrl), p)
  }

  /** A POST whose body does not parse has no target, so it is refused with 400. */
  lemma UnparsedPostIsBadRequest(cfg: Config, req: Request)
    requires req.verb == "POST" && req.body.None?
    ensures Admit(cfg, req) == Rejected(400, "Missing url parameter")
  {
  }

  /**
   * With the shipped wildcard host list, a target that does not even parse
   * passes the host check: only the referrer check remains.
   */
  lemma ShippedConfigAdmitsUnparsableTarget(urls: UrlSyntax, req: Request)
    requires SupportedMethod(req.verb) && TargetGiven(ParamsOf(req).targetUrl)
    requires urls.parse(TargetText(ParamsOf(req).targetUrl)).None?
    requires Lookup(req.headers, "Referer").None?
    ensures Admit(ShippedConfig(urls), req).Admitted?
  {
    ShippedHostsAdmitEverything(urls, TargetText(ParamsOf(req).targetUrl));
  }

  /**
   * A body `url` that is an array or object is truthy whatever its text, even
   * an empty one (`[]`), so it is never refused as missing; the shipped
   * configuration admits it, with that text as the target, when no `Referer`
   * is sent.
   */
  lemma CompositeUrlIsGiven(urls: UrlSyntax, req: Request)
    requires req.verb == "POST" && req.body.Some? && !DispositionThrows(req.body.value)
    requires req.body.value.url.Some? && req.body.value.url.value.JComposite?
    ensures TargetGiven(ParamsOf(req).targetUrl)
    ensures Lookup(req.headers, "Referer").None? ==>
      Admit(ShippedConfig(urls), req) == Admitted(req.body.value.url.value.text, ParamsOf(req))
  {
    ShippedHostsAdmitEverything(urls, req.body.value.url.value.text);
  }

  // ---------------------------------------------------------------- upstream headers

  /** The kind guessed from the target's path alone, which picks the fingerprint. */
  function EstimatedKind(cfg: Config, target: string): ResourceKind {
    GetResourceType("", GetExtension(cfg.urls, "", target))
  }

  /** `[(name, value)]` when the client sent `name` with a non-empty value. */
  function ClientHeader(client: HeaderMap, name: string): (es: Entries)
    ensures |es| <= 1
    ensures es != [] <==> Truthy(Lookup(client, name))
  {
    var v := Lookup(client, name);
    if Truthy(v) then [(name, v.value)] else []
  }

  /** The client's conditional headers, in the order the handler copies them. */
  function ConditionalLayer(client: HeaderMap): Entries {
    ClientHeader(client, "Range") + ClientHeader(client, "If-None-Match")
    + ClientHeader(client, "If-Modified-Since") + ClientHeader(client, "If-Range")
  }

  /** Four layers of entries set one after another into an empty `Headers`, lowest priority first. */
  function Layered(a: Entries, b: Entries, c: Entries, d: Entries): HeaderMap {
    SetAll(SetAll(SetAll(SetAll(map[], a), b), c), d)
  }

  /**
   * The headers sent upstream: the fingerprint of the estimated kind, the
   * channel's headers, the client's conditional headers, the body's headers.
   */
  function UpstreamHeaders(cfg: Config, req: Request, target: string, p: Params): HeaderMap {
    Layered(BuildBrowserHeaders(EstimatedKind(cfg, target)), ChannelFor(cfg.urls, cfg.rules, target).headers,
      ConditionalLayer(req.headers), p.extraHeaders)
  }

  /** Last writer wins: a name takes its value from the highest layer that sets it. */
  lemma LayerPrecedence(a: Entries, b: Entries, c: Entries, d: Entries, k: string)
    ensures Entry(Layered(a, b, c, d), k) ==
      if LastValue(d, k).Some? then LastValue(d, k)
      else if LastValue(c, k).Some? then LastValue(c, k)
      else if LastValue(b, k).Some? then LastValue(b, k)
      else LastValue(a, k)
  {
    var ma := SetAll(map[], a);
    var mb := SetAll(ma, b);
    var mc := SetAll(mb, c);
    SetAllEntry(map[], a, k);
    SetAllEntry(ma, b, k);
    SetAllEntry(mb, c, k);
    SetAllEntry(mc, d, k);
  }

  lemma LowerIfNoneMatch() ensures Lower("If-None-Match") == "if-none-match" {}
  lemma LowerIfModifiedSince() ensures Lower("If-Modified-Since") == "if-modified-since" {}
  lemma LowerIfRange() ensures Lower("If-Range") == "if-range" {}

  /** The last entry for `k` in a conditional header is that header's, if the names agree. */
  lemma ClientHeaderValue(client: HeaderMap, name: string, k: string)
    ensures LastValue(ClientHeader(client, name), k) ==
      if Lower(name) == k && Truthy(Lookup(client, name)) then Lookup(client, name) else None
  {
  }

  /** The conditional layer carries the client's `Range` when it is truthy, and no other `range`. */
  lemma ConditionalLayerRange(client: HeaderMap)
    ensures LastValue(ConditionalLayer(client), "range") ==
      if Truthy(Lookup(client, "Range")) then Lookup(client, "Range") else None
  {
    LowerRange();
    var a := ClientHeader(client, "Range");
    var b := ClientHeader(client, "If-None-Match");
    var c := ClientHeader(client, "If-Modified-Since");
    var d := ClientHeader(client, "If-Range");
    LastValueConcat(a + b + c, d, "range");
    LastValueConcat(a + b, c, "range");
    LastValueConcat(a, b, "range");
    ClientHeaderValue(client, "If-None-Match", "range");
    ClientHeaderValue(client, "If-Modified-Since", "range");
    ClientHeaderValue(client, "If-Range", "range");
    ClientHeaderValue(client, "Range", "range");
  }

  /** The client's `Range` reaches the upstream unless the body's headers set one. */
  lemma ClientRangeForwarded(cfg: Config, req: Request, target: string, p: Params)
    requires Truthy(Lookup(req.headers, "Range"))
    requires LastValue(p.extraHeaders, "range").None?
    ensures Lookup(UpstreamHeaders(cfg, req, target, p), "Range") == Lookup(req.headers, "Range")
  {
    LowerRange();
    ConditionalLayerRange(req.headers);
    LayerPrecedence(BuildBrowserHeaders(EstimatedKind(cfg, target)), ChannelFor(cfg.urls, cfg.rules, target).headers,
      ConditionalLayer(req.headers), p.extraHeaders, "range");
  }

  /** The body's `headers` override everything else sent upstream. */
  lemma ExtraHeadersWin(cfg: Config, req: Request, target: string, p: Params, k: string)
    requires LastValue(p.extraHeaders, k).Some?
    ensures Entry(UpstreamHeaders(cfg, req, target, p), k) == LastValue(p.extraHeaders, k)
  {
    LayerPrecedence(BuildBrowserHeaders(EstimatedKind(cfg, target)), ChannelFor(cfg.urls, cfg.rules, target).headers,
      ConditionalLayer(req.headers), p.extraHeaders, k);
  }

  /**
   * Lines 64-80 of the handler: a `Headers` from the fingerprint, the
   * matched channel's headers over it, the client's conditional headers,
   * then the body's `headers`. Setting a body header with a malformed name
   * or value throws, which `ok` reports; the headers are then of no use.
   */
  method BuildUpstreamHeaders(fingerprint: Entries, urls: UrlSyntax, rules: seq<Channel>, target: string,
                              client: HeaderMap, extra: Entries)
    returns (headers: HeaderMap, channel: Channel, ok: bool)
    requires DistinctNames(fingerprint)
    ensures channel == ChannelFor(urls, rules, target)
    ensures ok <==> ValidEntries(extra)
    ensures ok ==> headers == Layered(fingerprint, channel.headers, ConditionalLayer(client), extra)
  {
    var upstreamHeaders := new Headers.Of(fingerprint);
    channel := ApplyChannelHeaders(upstreamHeaders, urls, rules, target);
    ghost var afterChannel := upstreamHeaders.m;

    CopyClientHeader(upstreamHeaders, client, "Range");
    CopyClientHeader(upstreamHeaders, client, "If-None-Match");
    CopyClientHeader(upstreamHeaders, client, "If-Modified-Since");
    CopyClientHeader(upstreamHeaders, client, "If-Range");
    ConditionalLayerSet(afterChannel, client);

    ghost var afterClient := upstreamHeaders.m;
    var i := 0;
    while i < |extra|
      invariant 0 <= i <= |extra|
      invariant upstreamHeaders.m == SetAll(afterClient, extra[..i])
      invariant ValidEntries(extra[..i])
    {
      SetAllStep(afterClient, extra, i);
      var accepted := upstreamHeaders.TrySet(extra[i].0, extra[i].1);
      if !accepted {
        assert !ValidEntry(extra[i]);
        return upstreamHeaders.m, channel, false;
      }
      assert extra[..i + 1] == extra[..i] + [extra[i]];
      i := i + 1;
    }
    assert extra[..i] == extra;
    headers, ok := upstreamHeaders.m, true;
  }

  /** Copies the client's header `name` upstream when its value is non-empty. */
  method CopyClientHeader(h: Headers, client: HeaderMap, name: string)
    modifies h
    ensures h.m == SetAll(old(h.m), ClientHeader(client, name))
  {
    var v := Lookup(client, name);
    if Truthy(v) {
      h.Set(name, v.value);
    }
  }

  /** Setting the conditional layer is the four guarded `set` calls in turn. */
  lemma ConditionalLayerSet(m: HeaderMap, client: HeaderMap)
    ensures SetAll(m, ConditionalLayer(client)) ==
      SetAll(SetAll(SetAll(SetAll(m, ClientHeader(client, "Range")), ClientHeader(client, "If-None-Match")),
        ClientHeader(client, "If-Modified-Since")), ClientHeader(client, "If-Range"))
  {
    var a := ClientHeader(client, "Range");
    var b := ClientHeader(client, "If-None-Match");
    var c := ClientHeader(client, "If-Modified-Since");
    var d := ClientHeader(client, "If-Range");
    SetAllConcat(m, a + b + c, d);
    SetAllConcat(m, a + b, c);
    SetAllConcat(m, a, b);
  }

  // ---------------------------------------------------------------- caching policy

  /**
   * `isCacheable`: caching asked for, a GET or HEAD, and no `Range` from the
   * client. So a cacheable request is fetched with its own method and
   * answered with whole bodies only.
   */
  function IsCacheable(req: Request, p: Params): (r: bool)
    ensures r ==> p.cacheEnabled && UpstreamMethod(req.verb) == req.verb && req.verb != "POST"
    ensures r ==> !Truthy(Lookup(req.headers, "Range"))
    ensures !r && p.cacheEnabled && !Truthy(Lookup(req.headers, "Range")) ==> req.verb != "GET" && req.verb != "HEAD"
  {
    p.cacheEnabled && (req.verb == "GET" || req.verb == "HEAD") && !Truthy(Lookup(req.headers, "Range"))
  }

  /** The disposition sent back: `inline` only when asked for exactly, `attachment` otherwise. */
  function FinalDisposition(d: string): (r: string)
    ensures r == "inline" <==> d == "inline"
    ensures r == "inline" || r == "attachment"
  {
    if d == "inline" then "inline" else "attachment"
  }

  /** The cache key of an admitted request. */
  function CacheKeyFor(req: Request, target: string, p: Params): CacheKey {
    BuildCacheKeyRequest(req.url, target, FinalDisposition(p.disposition))
  }

  /** A POST is never cacheable, whatever its body says. */
  lemma PostNeverCacheable(req: Request, p: Params)
    requires req.verb == "POST"
    ensures !IsCacheable(req, p)
  {
  }

  /**
   * Only the client's own `Range` matters: a `Range` a channel rule or the
   * body's headers add upstream does not make a request uncacheable.
   */
  lemma CacheabilityIgnoresUpstreamRange(req: Request, p: Params, q: Params)
    requires p.cacheEnabled == q.cacheEnabled
    ensures IsCacheable(req, p) == IsCacheable(req, q)
  {
  }

  // ---------------------------------------------------------------- the edge cache

  /** `caches.default`: stored responses by key. */
  class EdgeCache {
    var entries: map<CacheKey, Response>

    constructor ()
      ensures entries == map[]
    {
      entries := map[];
    }

    /** `cache.put(key, response)`. */
    method Put(key: CacheKey, r: Response)
      modifies this
      ensures entries == old(entries)[key := r]
    {
      entries := entries[key := r];
    }
  }

  // ---------------------------------------------------------------- the upstream

  /** A status a `fetch` can resolve with. */
  type HttpStatus = s: int | 200 <= s <= 599 witness 200

  datatype UpstreamRequest = UpstreamRequest(url: string, verb: string, headers: HeaderMap)
  datatype UpstreamResponse = UpstreamResponse(status: HttpStatus, headers: CanonicalHeaderMap, body: Body)

  /** What `fetch` does: resolve with a response, or throw (with the error's message if it is an `Error`). */
  datatype FetchOutcome = Fetched(response: UpstreamResponse) | Threw(message: Option<string>)

  /** `response.ok`. */
  predicate Ok(status: int) {
    200 <= status <= 299
  }

  /** Line 104: a status that is not 2xx, 206 or 304 is reported as an error. */
  predicate UpstreamRejected(status: int) {
    !Ok(status) && status != 206 && status != 304
  }

  /** The upstream method: a POST to the proxy becomes a GET upstream. */
  function UpstreamMethod(m: string): (r: string)
    ensures r == (if m == "POST" then "GET" else m)
    ensures r != "POST"
  {
    if m == "POST" then "GET" else m
  }

  /**
   * Line 164: the message of a thrown `Error`, even an empty one, after a
   * fixed prefix; `Unknown error` for anything else thrown.
   */
  function GatewayMessage(message: Option<string>): (r: string)
    ensures StartsWith(r, "Gateway error: ")
    ensures message.Some? ==> r[|"Gateway error: "|..] == message.value
    ensures message.None? ==> r[|"Gateway error: "|..] == "Unknown error"
  {
    "Gateway error: " + message.GetOr("Unknown error")
  }

  /** Line 105: the upstream status, in decimal after a fixed prefix, can be read back from the message. */
  function UpstreamErrorMessage(status: HttpStatus): (r: string)
    ensures StartsWith(r, "Upstream error: ")
    ensures ParseInt(r[|"Upstream error: "|..]) == Some(status as int)
  {
    ParseIntOfNatToString(status);
    "Upstream error: " + NatToString(status)
  }

  /** Lines 110-111: a 206 the client did not ask for (no `Range` from it) is turned into a 200. */
  predicate NeedsNormalize(status: int, clientRange: Option<string>) {
    status == 206 && !Truthy(clientRange)
  }

  function EmittedStatus(status: int, clientRange: Option<string>): (r: int)
    ensures NeedsNormalize(status, clientRange) ==> r == 200
    ensures !NeedsNormalize(status, clientRange) ==> r == status
    ensures r != 206 || Truthy(clientRange)
  {
    if NeedsNormalize(status, clientRange) then 200 else status
  }

  // ---------------------------------------------------------------- type, lifetimes and annotations

  /**
   * Lines 123-124: the extension of the response. A type of the table other
   * than octet-stream gives its table extension; otherwise the extension
   * comes from the target's path, or is `bin`.
   */
  function ResponseExtension(cfg: Config, target: string, raw: string): (r: string)
    ensures WellShapedExtension(r)
    ensures raw != OCTET_STREAM && MimeExtension(raw).Some? ==> r == MimeExtension(raw).value
    ensures raw == OCTET_STREAM || MimeExtension(raw).None? ==>
      if cfg.urls.resolve(target).Some? && 2 <= |PathExtension(cfg.urls.resolve(target).value.pathname)| <= 5
      then r == PathExtension(cfg.urls.resolve(target).value.pathname)
      else r == "bin"
  {
    if raw == OCTET_STREAM then GetExtension(cfg.urls, "", target) else GetExtension(cfg.urls, raw, target)
  }

  /** Lines 127-134: an octet-stream response takes the first table type of its extension, if any. */
  function EffectiveContentType(raw: string, ext: string): (r: string)
    ensures raw != OCTET_STREAM ==> r == raw
    ensures raw == OCTET_STREAM ==> r == MimeTypeFor(ext).GetOr(raw)
  {
    if raw == OCTET_STREAM && MimeTypeFor(ext).Some? then MimeTypeFor(ext).value else raw
  }

  /** A lifetime clamped to between zero and one day (86400 seconds). */
  function ClampTtl(x: int): (r: nat)
    ensures r <= 86400
    ensures 0 <= x <= 86400 ==> r == x
  {
    if x < 0 then 0 else if x > 86400 then 86400 else x
  }

  /** Lines 137-139: the browser lifetime, from the override when one is given. */
  function ResolveBrowserTtl(override: Option<string>, defaultTtl: nat): (r: nat)
    ensures override.None? ==> r == defaultTtl
    ensures override.Some? ==> r <= 86400
  {
    match override
    case None => defaultTtl
    case Some(s) =>
      var n := JsNumber(s);
      ClampTtl(if n.Some? && n.value != 0 then n.value else defaultTtl)
  }

  /** `0`, an empty text or one that is not a number leave the default (bounded by a day) in place. */
  lemma TtlFallsBackToDefault(s: string, defaultTtl: nat)
    requires JsNumber(s) == Some(0) || JsNumber(s).None?
    ensures ResolveBrowserTtl(Some(s), defaultTtl) == ClampTtl(defaultTtl)
  {
  }

  /** A negative override turns browser caching off; one above a day is cut to a day. */
  lemma TtlOverrideClamped(s: string, defaultTtl: nat, n: int)
    requires JsNumber(s) == Some(n) && n != 0
    ensures n < 0 ==> ResolveBrowserTtl(Some(s), defaultTtl) == 0
    ensures n > 86400 ==> ResolveBrowserTtl(Some(s), defaultTtl) == 86400
    ensures 0 < n <= 86400 ==> ResolveBrowserTtl(Some(s), defaultTtl) == n
  {
  }

  /** Any lifetime written as decimal digits is read back as itself. */
  lemma TtlOverrideOfDigits(n: nat, defaultTtl: nat)
    requires 0 < n <= 86400
    ensures ResolveBrowserTtl(Some(NatToString(n)), defaultTtl) == n
  {
    JsNumberOfDigits(NatToString(n));
  }

  /** The lifetimes of a response: the browser's, then the CDN's (never shorter). */
  function ResolveTtls(override: Option<string>, defaults: Ttls): (r: Ttls)
    ensures r.browserTtl == ResolveBrowserTtl(override, defaults.browserTtl)
    ensures r.cdnTtl >= r.browserTtl && r.cdnTtl >= defaults.cdnTtl
    ensures r.cdnTtl == defaults.cdnTtl || r.cdnTtl == r.browserTtl
  {
    var b := ResolveBrowserTtl(override, defaults.browserTtl);
    Ttls(b, if defaults.cdnTtl >= b then defaults.cdnTtl else b)
  }

  /**
   * Line 143: a public `Cache-Control` whose `max-age` reads back as the
   * browser lifetime and which ends with the CDN lifetime as `s-maxage` and a
   * week of `stale-while-revalidate`.
   */
  function CacheControlValue(t: Ttls): (r: string)
    ensures StartsWith(r, "public, max-age=")
    ensures ParseInt(BeforeFirst(r[|"public, max-age="|..], ',')) == Some(t.browserTtl)
    ensures EndsWith(r, ", s-maxage=" + NatToString(t.cdnTtl) + ", stale-while-revalidate=604800")
  {
    var b := NatToString(t.browserTtl);
    var tail := ", s-maxage=" + NatToString(t.cdnTtl) + ", stale-while-revalidate=604800";
    HeadBeforeComma(t.browserTtl, tail);
    Affixes("public, max-age=", b, tail);
    "public, max-age=" + b + tail
  }

  /** A text made of a prefix, a middle and a tail starts with the prefix, ends with the tail, and drops to the rest. */
  lemma Affixes(prefix: string, middle: string, tail: string)
    ensures var r := prefix + middle + tail;
      StartsWith(r, prefix) && EndsWith(r, tail) && r[|prefix|..] == middle + tail
  {
    var r := prefix + middle + tail;
    assert r[..|prefix|] == prefix;
    assert r[|r| - |tail|..] == tail;
  }

  /** The decimal text of `n` read up to a comma that follows it is `n`. */
  lemma HeadBeforeComma(n: nat, tail: string)
    requires tail != [] && tail[0] == ','
    ensures ParseInt(BeforeFirst(NatToString(n) + tail, ',')) == Some(n)
  {
    var b := NatToString(n);
    DigitsHaveNoComma(b);
    assert b + tail == b + [','] + tail[1..];
    BeforeFirstOfHead(b, ',', tail[1..]);
    ParseIntOfNatToString(n);
  }

  /** `X-Proxy-Cache-Ttl`: the two lifetimes separated by `/`. */
  function TtlHeaderValue(t: Ttls): string {
    NatToString(t.browserTtl) + "/" + NatToString(t.cdnTtl)
  }

  /** The `X-Proxy-Cache-Ttl` value can be read back into the two lifetimes. */
  lemma TtlHeaderRoundTrip(t: Ttls)
    ensures ParseInt(BeforeFirst(TtlHeaderValue(t), '/')) == Some(t.browserTtl)
    ensures ParseInt(AfterLast(TtlHeaderValue(t), '/')) == Some(t.cdnTtl)
  {
    var b := NatToString(t.browserTtl);
    var c := NatToString(t.cdnTtl);
    DigitsHaveNoSlash(b);
    DigitsHaveNoSlash(c);
    BeforeFirstOfHead(b, '/', c);
    AfterLastOfTail(b, '/', c);
    ParseIntOfNatToString(t.browserTtl);
    ParseIntOfNatToString(t.cdnTtl);
  }

  lemma DigitsHaveNoSlash(s: string)
    requires AllDigits(s)
    ensures '/' !in s
  {
  }

  lemma DigitsHaveNoComma(s: string)
    requires AllDigits(s)
    ensures ',' !in s
  {
  }

  /** `BeforeFirst` of a `c`-free head followed by `c` is that head. */
  lemma {:induction false} BeforeFirstOfHead(head: string, c: char, rest: string)
    requires c !in head
    ensures BeforeFirst(head + [c] + rest, c) == head
  {
    if head != [] {
      assert (head + [c] + rest)[1..] == head[1..] + [c] + rest;
      BeforeFirstOfHead(head[1..], c, rest);
    }
  }

  /**
   * Line 146: `Content-Disposition` opens with the disposition, and the file
   * name `download_<now>.<ext>` ends in the extension when it has no dot.
   */
  function DispositionValue(disposition: string, now: nat, ext: string): (r: string)
    ensures StartsWith(r, disposition + "; filename=\"download_")
    ensures '.' !in ext ==> AfterLast(r, '.') == ext + "\""
  {
    var stem := disposition + "; filename=\"download_" + NatToString(now);
    FileNameExtension(stem, ext);
    stem + "." + ext + "\""
  }

  /** The text after the last dot of a quoted file name is its dot-free extension and the closing quote. */
  lemma FileNameExtension(stem: string, ext: string)
    ensures '.' !in ext ==> AfterLast(stem + "." + ext + "\"", '.') == ext + "\""
  {
    if '.' !in ext {
      assert stem + "." + ext + "\"" == stem + ['.'] + (ext + "\"");
      AfterLastOfTail(stem, '.', ext + "\"");
    }
  }

  // ---------------------------------------------------------------- the response on a miss

  /** The facts the miss response is built from. */
  datatype Miss = Miss(rawType: string, ext: string, contentType: string, ttls: Ttls)

  /** Lines 123-140: the extension, the effective type and the lifetimes of a response whose bare type is `raw`. */
  function MissFacts(cfg: Config, target: string, p: Params, raw: string): (f: Miss)
    ensures f.rawType == raw
    ensures f.ext == ResponseExtension(cfg, target, raw)
    ensures f.contentType == EffectiveContentType(raw, f.ext)
    ensures f.ttls == ResolveTtls(p.cacheTtlOverride, GetDefaultTtls(f.contentType, f.ext))
    ensures f.ttls.cdnTtl >= f.ttls.browserTtl
  {
    var ext := ResponseExtension(cfg, target, raw);
    var contentType := EffectiveContentType(raw, ext);
    Miss(raw, ext, contentType, ResolveTtls(p.cacheTtlOverride, GetDefaultTtls(contentType, ext)))
  }

  /** Lines 113-120: the whitelisted upstream headers, without the range framing when a 206 is normalised. */
  function PassedHeaders(up: UpstreamResponse, clientRange: Option<string>): HeaderMap {
    var passed := PassThrough(up.headers);
    if NeedsNormalize(up.status, clientRange) then Without(Without(passed, "Content-Range"), "Content-Length")
    else passed
  }

  /** Lines 127-134: an octet-stream response gets the table type of its path's extension, when there is one. */
  function Retyped(m: HeaderMap, f: Miss): HeaderMap {
    if f.rawType == OCTET_STREAM && MimeTypeFor(f.ext).Some? then With(m, "Content-Type", f.contentType) else m
  }

  /** Lines 142-150: a default `Cache-Control` when the upstream sent none, then the proxy's own headers. */
  function Annotated(m: HeaderMap, f: Miss, disposition: string, now: nat, channelName: string): HeaderMap {
    var cached := if Lookup(m, "Cache-Control").Some? then m else With(m, "Cache-Control", CacheControlValue(f.ttls));
    var disposed := With(cached, "Content-Disposition", DispositionValue(disposition, now, f.ext));
    var varied := With(disposed, "Vary", "Origin, Range");
    var marked := With(varied, "X-Proxy-Cache", "MISS");
    With(With(marked, "X-Proxy-Cache-Ttl", TtlHeaderValue(f.ttls)), "X-Proxy-Channel", channelName)
  }

  /** The response headers on a miss, before the CORS block. */
  function MissHeaders(cfg: Config, target: string, p: Params, disposition: string, clientRange: Option<string>,
                       channelName: string, up: UpstreamResponse, now: nat): HeaderMap
  {
    var f := MissFacts(cfg, target, p, BareContentType(up.headers));
    Annotated(Retyped(PassedHeaders(up, clientRange), f), f, disposition, now, channelName)
  }

  function MissResponse(cfg: Config, target: string, p: Params, disposition: string, clientRange: Option<string>,
                        channelName: string, up: UpstreamResponse, now: nat): Response
  {
    Respond(up.body, EmittedStatus(up.status, clientRange),
      MissHeaders(cfg, target, p, disposition, clientRange, channelName, up, now))
  }

  /** Lines 110-120: a fresh `Headers` with the whitelisted upstream headers, and the bare upstream type. */
  method PassUpstreamHeaders(upstream: UpstreamResponse, clientRange: Option<string>)
    returns (h: Headers, rawContentType: string)
    ensures fresh(h)
    ensures h.m == PassedHeaders(upstream, clientRange)
    ensures rawContentType == BareContentType(upstream.headers)
  {
    var needsNormalize := upstream.status == 206 && !Truthy(clientRange);
    h := new Headers();
    rawContentType := ExtractPassThroughHeaders(upstream.headers, h);
    assert h.m == PassThrough(upstream.headers);
    if needsNormalize {
      h.Delete("Content-Range");
      h.Delete("Content-Length");
    }
  }

  /**
   * Lines 123-140, on the response's `Headers`: the extension, the
   * re-inferred type of an octet-stream response and the lifetimes.
   */
  method Retype(h: Headers, cfg: Config, target: string, p: Params, rawContentType: string) returns (f: Miss)
    modifies h
    ensures f == MissFacts(cfg, target, p, rawContentType)
    ensures h.m == Retyped(old(h.m), f)
  {
    var ext := if rawContentType == OCTET_STREAM then GetExtension(cfg.urls, "", target)
      else GetExtension(cfg.urls, rawContentType, target);
    var contentType := rawContentType;
    if rawContentType == OCTET_STREAM {
      var mimeByExt := MimeTypeFor(ext);
      if mimeByExt.Some? {
        contentType := mimeByExt.value;
        h.Set("Content-Type", contentType);
      }
    }
    var defaults := GetDefaultTtls(contentType, ext);
    var browserTtl := ResolveBrowserTtl(p.cacheTtlOverride, defaults.browserTtl);
    var cdnTtl := if defaults.cdnTtl >= browserTtl then defaults.cdnTtl else browserTtl;
    f := Miss(rawContentType, ext, contentType, Ttls(browserTtl, cdnTtl));
  }

  /** Lines 142-150, on the response's `Headers`. */
  method Annotate(h: Headers, f: Miss, disposition: string, now: nat, channelName: string)
    modifies h
    ensures h.m == Annotated(old(h.m), f, disposition, now, channelName)
  {
    if !h.Has("Cache-Control") {
      h.Set("Cache-Control", CacheControlValue(f.ttls));
    }
    h.Set("Content-Disposition", DispositionValue(disposition, now, f.ext));
    h.Set("Vary", "Origin, Range");
    h.Set("X-Proxy-Cache", "MISS");
    h.Set("X-Proxy-Cache-Ttl", TtlHeaderValue(f.ttls));
    h.Set("X-Proxy-Channel", channelName);
  }

  /**
   * Lines 110-154 of the handler: the whitelisted upstream headers, the
   * 206-to-200 normalisation, the re-inferred type, the lifetimes and the
   * diagnostic headers.
   */
  method RespondFromUpstream(cfg: Config, target: string, p: Params, finalDisposition: string,
                             clientRange: Option<string>, channelName: string, upstream: UpstreamResponse, now: nat)
    returns (resp: Response)
    ensures resp == MissResponse(cfg, target, p, finalDisposition, clientRange, channelName, upstream, now)
  {
    var responseHeaders, rawContentType := PassUpstreamHeaders(upstream, clientRange);
    var f := Retype(responseHeaders, cfg, target, p, rawContentType);
    Annotate(responseHeaders, f, finalDisposition, now, channelName);
    var responseStatus := if upstream.status == 206 && !Truthy(clientRange) then 200 else upstream.status;
    resp := CreateResponse(upstream.body, responseStatus, responseHeaders.m);
  }

  // ---------------------------------------------------------------- the whole exchange

  /**
   * What one request produces: the response, the upstream request if one was
   * made, and the cache write if any. The response is `None` when the
   * handler throws instead of answering, so that its promise rejects.
   */
  datatype Exchange = Exchange(response: Option<Response>, sent: Option<UpstreamRequest>, stored: Option<(CacheKey, Response)>)

  /** The cache contents after an exchange's write, if it has one. */
  function Stored(entries: map<CacheKey, Response>, write: Option<(CacheKey, Response)>): map<CacheKey, Response> {
    if write.Some? then entries[write.value.0 := write.value.1] else entries
  }

  /** The response a cache hit produces: the stored one, marked `HIT`. */
  function HitResponse(cached: Response): Response {
    Respond(cached.body, cached.status, With(cached.headers, "X-Proxy-Cache", "HIT"))
  }

  /** The request sent upstream for an admitted request. */
  function Outgoing(cfg: Config, req: Request, target: string, p: Params): UpstreamRequest {
    UpstreamRequest(target, UpstreamMethod(req.verb), UpstreamHeaders(cfg, req, target, p))
  }

  /**
   * Lines 97-160: the upstream is fetched; a throw is a 502, a refused
   * status is reported with that status, anything else becomes the miss
   * response, stored under `key` when `storing` and the upstream said 2xx.
   */
  function Forwarded(cfg: Config, target: string, p: Params, disposition: string, clientRange: Option<string>,
                     channelName: string, outgoing: UpstreamRequest, key: CacheKey, storing: bool,
                     answer: FetchOutcome, now: nat): (x: Exchange)
    ensures x.response.Some? && x.sent == Some(outgoing)
    ensures x.stored.Some? ==> storing && x.stored.value == (key, x.response.value)
  {
    match answer
    case Threw(message) => Exchange(Some(ErrorResponse(GatewayMessage(message), 502)), Some(outgoing), None)
    case Fetched(up) =>
      if UpstreamRejected(up.status) then
        Exchange(Some(ErrorResponse(UpstreamErrorMessage(up.status), up.status)), Some(outgoing), None)
      else
        var r := MissResponse(cfg, target, p, disposition, clientRange, channelName, up, now);
        Exchange(Some(r), Some(outgoing), if storing && Ok(up.status) then Some((key, r)) else None)
  }

  /** The stored response for `key`, marked `HIT`, when the request may be answered from the cache and it holds one. */
  function CachedHit(store: Option<map<CacheKey, Response>>, cacheable: bool, key: CacheKey): Option<Response> {
    if cacheable && store.Some? && key in store.value then Some(HitResponse(store.value[key])) else None
  }

  /**
   * Lines 62-160: an admitted request whose body headers are all accepted is
   * answered from the cache when it may be, and forwarded otherwise; one
   * with a malformed body header makes the handler throw at line 80.
   */
  function Serve(cfg: Config, req: Request, target: string, p: Params, store: Option<map<CacheKey, Response>>,
                 answer: FetchOutcome, now: nat): (x: Exchange)
    ensures x.response.None? <==> !ValidEntries(p.extraHeaders)
    ensures x.response.None? ==> x.sent.None? && x.stored.None?
    ensures x.stored.Some? ==> store.Some? && x.sent.Some? && x.response == Some(x.stored.value.1)
  {
    if !ValidEntries(p.extraHeaders) then Exchange(None, None, None)
    else
    var outgoing := Outgoing(cfg, req, target, p);
    var channel := ChannelFor(cfg.urls, cfg.rules, target);
    var clientRange := Lookup(req.headers, "Range");
    var disposition := FinalDisposition(p.disposition);
    var cacheable := IsCacheable(req, p);
    var key := CacheKeyFor(req, target, p);
    match CachedHit(store, cacheable, key)
    case Some(hit) => Exchange(Some(hit), None, None)
    case None =>
      Forwarded(cfg, target, p, disposition, clientRange, channel.name, outgoing, key, cacheable && store.Some?, answer, now)
  }

  /**
   * `handleRequest(request, env, ctx)` as a function: `store` is the cache's
   * contents (`None` where the platform has no cache), `answer` what the
   * upstream does with the one request made to it (the request is part of
   * the result), and `now` the clock.
   */
  function Handle(cfg: Config, req: Request, store: Option<map<CacheKey, Response>>,
                  answer: FetchOutcome, now: nat): (x: Exchange)
    ensures x.sent.Some? ==> Admit(cfg, req).Admitted?
    ensures x.response.None? <==> Admit(cfg, req).Admitted? && !ValidEntries(Admit(cfg, req).params.extraHeaders)
    ensures x.stored.Some? ==> store.Some? && x.sent.Some? && x.response == Some(x.stored.value.1)
  {
    match Admit(cfg, req)
    case Preflight => Exchange(Some(Respond(NoBody, 204, map[])), None, None)
    case NotAllowed => Exchange(Some(ErrorResponse("Method Not Allowed", 405)), None, None)
    case Rejected(status, message) => Exchange(Some(ErrorResponse(message, status)), None, None)
    case Admitted(target, p) => Serve(cfg, req, target, p, store, answer, now)
  }

  /**
   * What `caches.default.match` can find: the stored entries, or `None`
   * where the platform offers no cache. The handler writes only after its
   * lookup, so its lookup sees the contents it started with.
   */
  function StoreOf(cache: EdgeCache?): Option<map<CacheKey, Response>>
    reads cache
  {
    if cache == null then None else Some(cache.entries)
  }

  /**
   * Lines 97-154, step by step; `write` is the cache write that lines
   * 156-160 then make.
   */
  method Forward(cfg: Config, target: string, p: Params, finalDisposition: string, clientRange: Option<string>,
                 channelName: string, outgoing: UpstreamRequest, cacheKey: CacheKey, storing: bool,
                 answer: FetchOutcome, now: nat)
    returns (resp: Response, sent: Option<UpstreamRequest>, write: Option<(CacheKey, Response)>)
    ensures var x := Forwarded(cfg, target, p, finalDisposition, clientRange, channelName, outgoing, cacheKey, storing, answer, now);
      Some(resp) == x.response && sent == x.sent && write == x.stored
    ensures write.Some? ==> storing
  {
    sent := Some(outgoing);
    write := None;
    match answer
    case Threw(message) =>
      resp := CreateError(GatewayMessage(message), 502);
    case Fetched(upstream) =>
      if !Ok(upstream.status) && upstream.status != 206 && upstream.status != 304 {
        resp := CreateError(UpstreamErrorMessage(upstream.status), upstream.status);
        return;
      }
      resp := RespondFromUpstream(cfg, target, p, finalDisposition, clientRange, channelName, upstream, now);
      if storing && Ok(upstream.status) {
        write := Some((cacheKey, resp));
      }
  }

  /**
   * Lines 62-80 and 97-102: the upstream headers of the estimated kind and
   * the matched channel, and the request made with them; `ok` is false when
   * a body header was refused, and the request is then of no use.
   */
  method PrepareUpstream(cfg: Config, req: Request, target: string, params: Params)
    returns (outgoing: UpstreamRequest, channel: Channel, ok: bool)
    ensures ok <==> ValidEntries(params.extraHeaders)
    ensures ok ==> outgoing == Outgoing(cfg, req, target, params)
    ensures channel == ChannelFor(cfg.urls, cfg.rules, target)
  {
    var estimatedType := EstimatedKind(cfg, target);
    var upstreamHeaders;
    upstreamHeaders, channel, ok := BuildUpstreamHeaders(BuildBrowserHeaders(estimatedType), cfg.urls, cfg.rules,
      target, req.headers, params.extraHeaders);
    outgoing := UpstreamRequest(target, if req.verb == "POST" then "GET" else req.verb, upstreamHeaders);
  }

  /**
   * Lines 88-95: the stored response for `key`, marked `HIT`, when the
   * request may be answered from the cache and the cache holds one.
   */
  method LookupCache(store: Option<map<CacheKey, Response>>, cacheable: bool, key: CacheKey) returns (hit: Option<Response>)
    ensures hit == CachedHit(store, cacheable, key)
  {
    hit := None;
    if cacheable && store.Some? && key in store.value {
      var cached := store.value[key];
      var h := new Headers.Copy(cached.headers);
      h.Set("X-Proxy-Cache", "HIT");
      var r := CreateResponse(cached.body, cached.status, h.m);
      hit := Some(r);
    }
  }

  /** Lines 62-154 for an admitted request, step by step; `write` is the cache write of lines 156-160. */
  method ServeAdmitted(cfg: Config, req: Request, target: string, params: Params, store: Option<map<CacheKey, Response>>,
                       answer: FetchOutcome, now: nat)
    returns (resp: Option<Response>, sent: Option<UpstreamRequest>, write: Option<(CacheKey, Response)>)
    ensures var x := Serve(cfg, req, target, params, store, answer, now);
      resp == x.response && sent == x.sent && write == x.stored
    ensures write.Some? ==> store.Some?
  {
    var outgoing, matchedChannel, ok := PrepareUpstream(cfg, req, target, params);
    if !ok {
      return None, None, None;
    }
    var clientRange := Lookup(req.headers, "Range");

    var finalDisposition := FinalDisposition(params.disposition);
    var isCacheable := IsCacheable(req, params);
    var hasCache := store.Some?;
    var cacheKey := CacheKeyFor(req, target, params);

    var hit := LookupCache(store, isCacheable, cacheKey);
    if hit.Some? {
      return hit, None, None;
    }
    var r;
    r, sent, write := Forward(cfg, target, params, finalDisposition, clientRange, matchedChannel.name, outgoing,
      cacheKey, isCacheable && hasCache, answer, now);
    resp := Some(r);
  }

  /** Lines 50-59: the method, the parameters, the target and the two allow-lists, checked in that order. */
  method Validate(cfg: Config, req: Request) returns (g: Gate)
    ensures g == Admit(cfg, req)
  {
    if req.verb == "OPTIONS" {
      return Preflight;
    }
    if !(req.verb in ["GET", "POST", "HEAD"]) {
      return NotAllowed;
    }
    var params := if req.verb == "POST" then ParsePostBody(req.body) else ParseGetParams(req.url);
    if !(params.targetUrl.Some? && JsTruthy(params.targetUrl.value)) {
      return Rejected(400, "Missing url parameter");
    }
    var targetUrl := JsString(params.targetUrl.value);
    if !IsHostAllowed(cfg.urls, targetUrl, cfg.allowedHosts) {
      return Rejected(403, "Host not allowed");
    }
    if !IsReferrerAllowed(cfg.urls, Lookup(req.headers, "Referer"), cfg.allowedReferrers) {
      return Rejected(403, "Referrer not allowed");
    }
    return Admitted(targetUrl, params);
  }

  /**
   * Lines 49-165 of `handleRequest`: the response, the upstream request and
   * the cache write the handler hands to `waitUntil`, computed step by step.
   */
  method Dispatch(cfg: Config, req: Request, store: Option<map<CacheKey, Response>>, answer: FetchOutcome, now: nat)
    returns (resp: Option<Response>, sent: Option<UpstreamRequest>, write: Option<(CacheKey, Response)>)
    ensures Handle(cfg, req, store, answer, now) == Exchange(resp, sent, write)
    ensures write.Some? ==> store.Some?
  {
    var gate := Validate(cfg, req);
    sent, write := None, None;
    match gate
    case Preflight =>
      var r := CreateResponse(NoBody, 204);
      resp := Some(r);
    case NotAllowed =>
      var r := CreateError("Method Not Allowed", 405);
      resp := Some(r);
    case Rejected(status, message) =>
      var r := CreateError(message, status);
      resp := Some(r);
    case Admitted(targetUrl, params) =>
      resp, sent, write := ServeAdmitted(cfg, req, targetUrl, params, store, answer, now);
  }

  /**
   * `handleRequest(request, env, ctx)`: it answers what `Handle` says, makes
   * the upstream request `Handle` says, and writes the cache exactly when
   * `Handle` stores something; it answers nothing when `Handle` says it throws.
   */
  method HandleRequest(cfg: Config, req: Request, cache: EdgeCache?, answer: FetchOutcome, now: nat)
    returns (resp: Option<Response>, sent: Option<UpstreamRequest>)
    modifies cache
    ensures var x := Handle(cfg, req, old(StoreOf(cache)), answer, now);
      && resp == x.response && sent == x.sent
      && (cache != null ==> cache.entries == Stored(old(cache.entries), x.stored))
  {
    var write;
    resp, sent, write := Dispatch(cfg, req, StoreOf(cache), answer, now);
    if write.Some? {
      cache.Put(write.value.0, write.value.1);
    }
  }
}
