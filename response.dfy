/**
 * Response assembly (src/core/response.js): every response the proxy sends
 * carries the CORS block, errors are a JSON envelope, the cache is keyed by a
 * canonical request, and only whitelisted upstream headers reach the client.
 */
module Responses {
  import opened Wrappers
  import opened Strings
  import opened Http
  import opened Mime

  const CORS_HEADERS: Entries := [
    ("Access-Control-Allow-Origin", "*"),
    ("Access-Control-Allow-Methods", "GET, POST, HEAD, OPTIONS"),
    ("Access-Control-Allow-Headers", "Range, If-Range, If-Modified-Since, If-None-Match, Content-Type"),
    ("Access-Control-Max-Age", "86400"),
    ("Access-Control-Expose-Headers", "Content-Length, Content-Range, Accept-Ranges, Content-Disposition, X-Proxy-Cache, X-Proxy-Channel")
  ]

  /** The upstream headers the client may see, by lower-cased name. */
  const PASS_THROUGH_HEADERS: set<string> := {
    "content-type", "content-length", "content-range", "accept-ranges",
    "last-modified", "etag", "cache-control", "expires"
  }

  // ---------------------------------------------------------------- createResponse

  /** The CORS block set over `headers`. */
  function WithCors(headers: HeaderMap): HeaderMap {
    SetAll(headers, CORS_HEADERS)
  }

  /** The response `createResponse(body, status, headers)` builds. */
  function Respond(body: Body, status: int, headers: HeaderMap): Response {
    Response(status, WithCors(headers), body)
  }

  /** The CORS names differ from one another. */
  lemma CorsDistinct()
    ensures DistinctNames(CORS_HEADERS)
  {
    // Only the `-Methods` and `-Headers` names have the same length; they differ at position 21.
    assert Lower(CORS_HEADERS[1].0)[21] != Lower(CORS_HEADERS[2].0)[21];
  }

  /** Every CORS header holds its CORS value, whatever the caller supplied for it. */
  lemma CorsWins(headers: HeaderMap, i: nat)
    requires i < |CORS_HEADERS|
    ensures Lookup(WithCors(headers), CORS_HEADERS[i].0) == Some(CORS_HEADERS[i].1)
  {
    CorsDistinct();
    SetAllDistinct(headers, CORS_HEADERS, i);
  }

  /** A caller header that is not a CORS header keeps its value, and an absent one stays absent. */
  lemma CallerHeadersKept(headers: HeaderMap, k: string)
    requires k !in Names(CORS_HEADERS)
    ensures Entry(WithCors(headers), k) == Entry(headers, k)
  {
    SetAllOthers(headers, CORS_HEADERS, k);
  }

  /**
   * `createResponse(body, status = 200, headers = {})`: a fresh `Headers`
   * from the caller's, with every CORS header set over it.
   */
  method CreateResponse(body: Body, status: int := 200, headers: HeaderMap := map[]) returns (r: Response)
    ensures r == Respond(body, status, headers)
    ensures forall i :: 0 <= i < |CORS_HEADERS| ==> Lookup(r.headers, CORS_HEADERS[i].0) == Some(CORS_HEADERS[i].1)
    ensures forall k :: k !in Names(CORS_HEADERS) ==> Entry(r.headers, k) == Entry(headers, k)
  {
    var finalHeaders := new Headers.Copy(headers);
    var i := 0;
    while i < |CORS_HEADERS|
      invariant 0 <= i <= |CORS_HEADERS|
      invariant finalHeaders.m == SetAll(headers, CORS_HEADERS[..i])
    {
      SetAllStep(headers, CORS_HEADERS, i);
      finalHeaders.Set(CORS_HEADERS[i].0, CORS_HEADERS[i].1);
      i := i + 1;
    }
    assert CORS_HEADERS[..i] == CORS_HEADERS;
    r := Response(status, finalHeaders.m, body);
    forall j | 0 <= j < |CORS_HEADERS|
      ensures Lookup(r.headers, CORS_HEADERS[j].0) == Some(CORS_HEADERS[j].1)
    {
      CorsWins(headers, j);
    }
    forall k | k !in Names(CORS_HEADERS)
      ensures Entry(r.headers, k) == Entry(headers, k)
    {
      CallerHeadersKept(headers, k);
    }
  }

  /** A response with no body and the default status. */
  method CreateResponseDefaults(body: Body) returns (r: Response)
    ensures r.status == 200 && r.body == body
    ensures r.headers == WithCors(map[])
  {
    r := CreateResponse(body);
  }

  // ---------------------------------------------------------------- createError

  /** A single `Content-Type` entry of `application/json`. */
  const JSON_HEADERS: Entries := [("Content-Type", "application/json")]

  /** The response `createError(message, status)` builds. */
  function ErrorResponse(message: string, status: int): Response {
    Respond(JsonError(message), status, SetAll(map[], JSON_HEADERS))
  }

  /** An error response is the JSON envelope of its message, typed `application/json`, with the CORS block. */
  lemma ErrorResponseShape(message: string, status: int)
    ensures var r := ErrorResponse(message, status);
      && r.status == status
      && r.body == JsonError(message)
      && Lookup(r.headers, "Content-Type") == Some("application/json")
      && forall i :: 0 <= i < |CORS_HEADERS| ==> Lookup(r.headers, CORS_HEADERS[i].0) == Some(CORS_HEADERS[i].1)
  {
    var base := SetAll(map[], JSON_HEADERS);
    assert Lookup(base, "Content-Type") == Some("application/json");
    // "Content-Type" is shorter than every CORS name, so no CORS header replaces it.
    assert Lower("Content-Type") !in Names(CORS_HEADERS);
    CallerHeadersKept(base, Lower("Content-Type"));
    forall i | 0 <= i < |CORS_HEADERS|
      ensures Lookup(ErrorResponse(message, status).headers, CORS_HEADERS[i].0) == Some(CORS_HEADERS[i].1)
    {
      CorsWins(base, i);
    }
  }

  /** `createError(message, status = 403)`. */
  method CreateError(message: string, status: int := 403) returns (r: Response)
    ensures r == ErrorResponse(message, status)
    ensures r.status == status && r.body == JsonError(message)
    ensures Lookup(r.headers, "Content-Type") == Some("application/json")
  {
    var headers := new Headers.Of(JSON_HEADERS);
    r := CreateResponse(JsonError(message), status, headers.m);
    ErrorResponseShape(message, status);
  }

  /** Without a status, an error is a 403. */
  method CreateErrorDefault(message: string) returns (r: Response)
    ensures r.status == 403 && r.body == JsonError(message)
  {
    r := CreateError(message);
  }

  // ---------------------------------------------------------------- buildCacheKeyRequest

  /** A cache key: the method and URL of the request the cache is asked about. */
  datatype CacheKey = CacheKey(verb: string, url: RequestUrl)

  /**
   * `buildCacheKeyRequest(requestUrl, targetUrl, disposition)`: a GET for
   * the proxy's own origin and path whose query is exactly `url` then
   * `disposition`.
   */
  function BuildCacheKeyRequest(requestUrl: RequestUrl, targetUrl: string, disposition: string): (k: CacheKey)
    ensures k.verb == "GET"
    ensures k.url.origin == requestUrl.origin && k.url.pathname == requestUrl.pathname
    ensures |k.url.query| == 2
    ensures FirstValue(k.url.query, "url") == Some(targetUrl)
    ensures FirstValue(k.url.query, "disposition") == Some(disposition)
  {
    CacheKey("GET", RequestUrl(requestUrl.origin, requestUrl.pathname, [("url", targetUrl), ("disposition", disposition)]))
  }

  /** Two request URLs that differ only in their query give the same key. */
  lemma CacheKeyIgnoresQuery(a: RequestUrl, b: RequestUrl, targetUrl: string, disposition: string)
    requires a.origin == b.origin && a.pathname == b.pathname
    ensures BuildCacheKeyRequest(a, targetUrl, disposition) == BuildCacheKeyRequest(b, targetUrl, disposition)
  {
  }

  /** The key tells targets and dispositions apart: equal keys mean equal target, disposition and path. */
  lemma CacheKeyInjective(a: RequestUrl, b: RequestUrl, t1: string, t2: string, d1: string, d2: string)
    requires BuildCacheKeyRequest(a, t1, d1) == BuildCacheKeyRequest(b, t2, d2)
    ensures t1 == t2 && d1 == d2 && a.origin == b.origin && a.pathname == b.pathname
  {
    var k := BuildCacheKeyRequest(a, t1, d1);
    assert FirstValue(k.url.query, "url") == Some(t1);
    assert FirstValue(BuildCacheKeyRequest(b, t2, d2).url.query, "url") == Some(t2);
  }

  // ---------------------------------------------------------------- extractPassThroughHeaders

  /** The whitelisted upstream headers among `names`. */
  function PassThroughAmong(upstream: HeaderMap, names: set<string>): HeaderMap {
    map k | k in upstream && k in names && k in PASS_THROUGH_HEADERS :: upstream[k]
  }

  /** The upstream headers whose names are whitelisted. */
  function PassThrough(upstream: HeaderMap): HeaderMap {
    PassThroughAmong(upstream, upstream.Keys)
  }

  /** The content type the loop has seen after visiting the names in `done`. */
  function ContentTypeSeen(upstream: HeaderMap, done: set<string>): string {
    if "content-type" in done then BareContentType(upstream) else OCTET_STREAM
  }

  /** One more upstream header taken into account by the loop of `extractPassThroughHeaders`. */
  lemma PassThroughStep(base: HeaderMap, upstream: HeaderMap, done: set<string>, key: string)
    requires key in upstream
    ensures base + PassThroughAmong(upstream, done + {key}) ==
      if key in PASS_THROUGH_HEADERS then (base + PassThroughAmong(upstream, done))[key := upstream[key]]
      else base + PassThroughAmong(upstream, done)
  {
  }

  /** The content type the loop has seen, one header later. */
  lemma ContentTypeStep(upstream: HeaderMap, done: set<string>, key: string)
    requires key in upstream
    ensures ContentTypeSeen(upstream, done + {key}) ==
      if key == "content-type" then Trim(BeforeFirst(upstream[key], ';')) else ContentTypeSeen(upstream, done)
  {
  }

  /** Names in a `Headers` object are already lower-case. */
  lemma LowerKey(m: CanonicalHeaderMap, key: string)
    requires key in m
    ensures Lower(key) == key
  {
    LowerOfLower(key);
  }

  /**
   * The upstream content type without its parameters: the trimmed text before
   * the first `;`, which never holds a `;`; octet-stream when the upstream
   * sent no type.
   */
  function BareContentType(upstream: HeaderMap): (r: string)
    ensures ';' !in r
    ensures "content-type" !in upstream ==> r == OCTET_STREAM
  {
    if "content-type" in upstream then
      var b := BeforeFirst(upstream["content-type"], ';');
      TrimKeepsOut(b, ';');
      Trim(b)
    else OCTET_STREAM
  }

  /**
   * `extractPassThroughHeaders(upstreamResponse, responseHeaders)`: copies
   * the whitelisted upstream headers into `rh` and returns the bare content
   * type.
   */
  method ExtractPassThroughHeaders(upstream: CanonicalHeaderMap, rh: Headers) returns (contentType: string)
    modifies rh
    ensures rh.m == old(rh.m) + PassThrough(upstream)
    ensures contentType == BareContentType(upstream)
  {
    contentType := OCTET_STREAM;
    var todo := upstream.Keys;
    ghost var done: set<string> := {};
    while todo != {}
      invariant todo + done == upstream.Keys && todo !! done
      invariant rh.m == old(rh.m) + PassThroughAmong(upstream, done)
      invariant contentType == ContentTypeSeen(upstream, done)
      decreases |todo|
    {
      var key :| key in todo;
      var value := upstream[key];
      var lk := Lower(key);
      LowerKey(upstream, key);
      PassThroughStep(old(rh.m), upstream, done, key);
      ContentTypeStep(upstream, done, key);
      if lk in PASS_THROUGH_HEADERS {
        rh.Set(key, value);
        if lk == "content-type" {
          contentType := Trim(BeforeFirst(value, ';'));
        }
      }
      todo := todo - {key};
      done := done + {key};
    }
  }

  /** A content type without parameters or surrounding white space is handed back as it came. */
  lemma PlainContentTypeUnchanged(upstream: HeaderMap)
    requires "content-type" in upstream
    requires var v := upstream["content-type"]; ';' !in v && (v == [] || (!IsSpace(v[0]) && !IsSpace(v[|v| - 1])))
    ensures BareContentType(upstream) == upstream["content-type"]
  {
    var v := upstream["content-type"];
    assert BeforeFirst(v, ';') == v;
  }
}
