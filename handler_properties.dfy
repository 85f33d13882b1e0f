/**
 * Properties of the whole exchange `Proxy.Handle` describes (and so of
 * `Proxy.HandleRequest`, which is proved to follow it): when the upstream is
 * contacted, when the cache is written, what a later identical request
 * gets, and how failures are reported.
 */
module HandlerProperties {
  import opened Wrappers
  import opened Strings
  import opened Http
  import opened Mime
  import opened Responses
  import opened Channels
  import opened Proxy

  /**
   * Nothing is fetched and nothing is stored for a request the checks turn
   * away: a preflight gets an empty 204, an unknown method a 405, and a
   * refused request an error with the status and message of the check that
   * refused it.
   */
  lemma TurnedAwayRequests(cfg: Config, req: Request, store: Option<map<CacheKey, Response>>,
                           answer: FetchOutcome, now: nat)
    requires !Admit(cfg, req).Admitted?
    ensures var x := Handle(cfg, req, store, answer, now);
      && x.sent.None? && x.stored.None?
      && x.response.Some?
      && (req.verb == "OPTIONS" ==> x.response.value.status == 204 && x.response.value.body == NoBody)
      && (req.verb != "OPTIONS" && !SupportedMethod(req.verb) ==>
            x.response.value.status == 405 && x.response.value.body == JsonError("Method Not Allowed"))
      && (Admit(cfg, req).Rejected? ==>
            && x.response.value.status == Admit(cfg, req).status
            && x.response.value.body == JsonError(Admit(cfg, req).message))
  {
  }

  /** The cache key of an admitted request. */
  function AdmittedKey(req: Request, g: Gate): CacheKey
    requires g.Admitted?
  {
    CacheKeyFor(req, g.target, g.params)
  }

  /** An admitted request whose body headers the upstream `Headers` all accept, so the handler gets past line 80. */
  predicate Prepared(cfg: Config, req: Request) {
    Admit(cfg, req).Admitted? && ValidEntries(Admit(cfg, req).params.extraHeaders)
  }

  /** A prepared request that the cache answers. */
  predicate Hit(cfg: Config, req: Request, store: Option<map<CacheKey, Response>>) {
    var g := Admit(cfg, req);
    Prepared(cfg, req) && IsCacheable(req, g.params) && store.Some? && AdmittedKey(req, g) in store.value
  }

  /**
   * The handler throws, answering nothing, fetching nothing and storing
   * nothing, exactly for an admitted POST whose body holds a header name or
   * value that `Headers` refuses; a GET or HEAD carries no body headers.
   */
  lemma BodyHeadersThrow(cfg: Config, req: Request, store: Option<map<CacheKey, Response>>,
                         answer: FetchOutcome, now: nat)
    ensures var x := Handle(cfg, req, store, answer, now);
      x.response.None? <==> req.verb == "POST" && Admit(cfg, req).Admitted? && !Prepared(cfg, req)
    ensures var x := Handle(cfg, req, store, answer, now);
      x.response.None? ==> x == Exchange(None, None, None)
  {
    var g := Admit(cfg, req);
    if g.Admitted? {
      ServeSends(cfg, req, g.target, g.params, store, answer, now);
    }
  }

  /**
   * The upstream is contacted exactly when the request is admitted, its
   * body headers are accepted, and the cache does not answer it.
   */
  lemma UpstreamContactedOnMiss(cfg: Config, req: Request, store: Option<map<CacheKey, Response>>,
                                answer: FetchOutcome, now: nat)
    ensures Handle(cfg, req, store, answer, now).sent.Some? <==> Prepared(cfg, req) && !Hit(cfg, req, store)
  {
    var g := Admit(cfg, req);
    if g.Admitted? {
      ServeSends(cfg, req, g.target, g.params, store, answer, now);
    }
  }

  /**
   * What reaches the upstream is the request `Outgoing` builds from the
   * admitted target and parameters, and it is never a POST.
   */
  lemma UpstreamSeesOutgoing(cfg: Config, req: Request, store: Option<map<CacheKey, Response>>,
                             answer: FetchOutcome, now: nat)
    ensures var x := Handle(cfg, req, store, answer, now); var g := Admit(cfg, req);
      x.sent.Some? ==> g.Admitted? && x.sent.value == Outgoing(cfg, req, g.target, g.params) && x.sent.value.verb != "POST"
  {
    var g := Admit(cfg, req);
    if g.Admitted? {
      ServeSends(cfg, req, g.target, g.params, store, answer, now);
    }
  }

  /**
   * Every forwarded exchange sends `outgoing`; it stores the miss response
   * under `key` exactly when `storing` and the upstream said 2xx; a throw
   * and a refused status become errors.
   */
  lemma ForwardedFacts(cfg: Config, target: string, p: Params, disposition: string, clientRange: Option<string>,
                       channelName: string, outgoing: UpstreamRequest, key: CacheKey, storing: bool,
                       answer: FetchOutcome, now: nat)
    ensures var x := Forwarded(cfg, target, p, disposition, clientRange, channelName, outgoing, key, storing, answer, now);
      && x.sent == Some(outgoing)
      && (x.stored.Some? <==> storing && answer.Fetched? && Ok(answer.response.status))
      && (x.stored.Some? ==> x.stored.value == (key, x.response.value))
      && (answer.Threw? ==> x.response == Some(ErrorResponse(GatewayMessage(answer.message), 502)))
      && (answer.Fetched? && UpstreamRejected(answer.response.status) ==>
            x.response == Some(ErrorResponse(UpstreamErrorMessage(answer.response.status), answer.response.status)))
  {
  }

  /**
   * An admitted request reaches the upstream, as `Outgoing`, exactly when
   * its body headers are accepted and `CachedHit` finds nothing.
   */
  lemma ServeSends(cfg: Config, req: Request, target: string, p: Params, store: Option<map<CacheKey, Response>>,
                   answer: FetchOutcome, now: nat)
    ensures Serve(cfg, req, target, p, store, answer, now).sent ==
      if !ValidEntries(p.extraHeaders) || CachedHit(store, IsCacheable(req, p), CacheKeyFor(req, target, p)).Some? then None
      else Some(Outgoing(cfg, req, target, p))
  {
    ForwardedFacts(cfg, target, p, FinalDisposition(p.disposition), Lookup(req.headers, "Range"),
                   ChannelFor(cfg.urls, cfg.rules, target).name, Outgoing(cfg, req, target, p),
                   CacheKeyFor(req, target, p), IsCacheable(req, p) && store.Some?, answer, now);
  }

  /**
   * An admitted request's response is stored, under its key, exactly when it
   * is cacheable, a cache exists without it, and the upstream said 2xx.
   */
  lemma ServeStores(cfg: Config, req: Request, target: string, p: Params, store: Option<map<CacheKey, Response>>,
                   answer: FetchOutcome, now: nat)
    ensures var x := Serve(cfg, req, target, p, store, answer, now);
      x.stored.Some? <==>
        && ValidEntries(p.extraHeaders)
        && IsCacheable(req, p) && store.Some? && CacheKeyFor(req, target, p) !in store.value
        && answer.Fetched? && Ok(answer.response.status)
    ensures var x := Serve(cfg, req, target, p, store, answer, now);
      x.stored.Some? ==> x.stored.value == (CacheKeyFor(req, target, p), x.response.value)
  {
    if ValidEntries(p.extraHeaders) && CachedHit(store, IsCacheable(req, p), CacheKeyFor(req, target, p)).None? {
      ForwardedFacts(cfg, target, p, FinalDisposition(p.disposition), Lookup(req.headers, "Range"),
                     ChannelFor(cfg.urls, cfg.rules, target).name, Outgoing(cfg, req, target, p),
                     CacheKeyFor(req, target, p), IsCacheable(req, p) && store.Some?, answer, now);
    }
  }

  /** On a miss, a throw and a refused upstream status become errors. */
  lemma ServeFails(cfg: Config, req: Request, target: string, p: Params, store: Option<map<CacheKey, Response>>,
                   answer: FetchOutcome, now: nat)
    requires ValidEntries(p.extraHeaders)
    requires CachedHit(store, IsCacheable(req, p), CacheKeyFor(req, target, p)).None?
    ensures var x := Serve(cfg, req, target, p, store, answer, now);
      answer.Threw? ==> x.response == Some(ErrorResponse(GatewayMessage(answer.message), 502))
    ensures var x := Serve(cfg, req, target, p, store, answer, now);
      answer.Fetched? && UpstreamRejected(answer.response.status) ==>
        x.response == Some(ErrorResponse(UpstreamErrorMessage(answer.response.status), answer.response.status))
  {
    ForwardedFacts(cfg, target, p, FinalDisposition(p.disposition), Lookup(req.headers, "Range"),
                   ChannelFor(cfg.urls, cfg.rules, target).name, Outgoing(cfg, req, target, p),
                   CacheKeyFor(req, target, p), IsCacheable(req, p) && store.Some?, answer, now);
  }

  /** A cache hit is the stored response marked `HIT`, with no fetch and no write. */
  lemma HitServedFromCache(cfg: Config, req: Request, store: Option<map<CacheKey, Response>>,
                           answer: FetchOutcome, now: nat)
    requires Hit(cfg, req, store)
    ensures Handle(cfg, req, store, answer, now) ==
      Exchange(Some(HitResponse(store.value[AdmittedKey(req, Admit(cfg, req))])), None, None)
  {
  }

  /**
   * A response is stored exactly when the request is cacheable, the
   * platform has a cache that does not hold it yet, and the upstream
   * answered 2xx; it is stored under the request's key, as sent to the client.
   */
  lemma StoredExactlyWhen(cfg: Config, req: Request, store: Option<map<CacheKey, Response>>,
                          answer: FetchOutcome, now: nat)
    ensures var x := Handle(cfg, req, store, answer, now); var g := Admit(cfg, req);
      x.stored.Some? <==>
        && Prepared(cfg, req) && IsCacheable(req, g.params) && store.Some? && AdmittedKey(req, g) !in store.value
        && answer.Fetched? && Ok(answer.response.status)
    ensures var x := Handle(cfg, req, store, answer, now);
      x.stored.Some? ==> x.stored.value == (AdmittedKey(req, Admit(cfg, req)), x.response.value)
  {
    var g := Admit(cfg, req);
    if g.Admitted? {
      ServeStores(cfg, req, g.target, g.params, store, answer, now);
    }
  }

  /** A POST is never stored, whatever its body asks for. */
  lemma PostNeverStored(cfg: Config, req: Request, store: Option<map<CacheKey, Response>>,
                        answer: FetchOutcome, now: nat)
    requires req.verb == "POST"
    ensures Handle(cfg, req, store, answer, now).stored.None?
  {
    StoredExactlyWhen(cfg, req, store, answer, now);
  }

  /**
   * Once a response is stored, the same request is answered from the cache
   * with that response, marked `HIT`, whatever the upstream would do and
   * whenever it comes.
   */
  lemma SecondRequestHits(cfg: Config, req: Request, entries: map<CacheKey, Response>,
                          answer: FetchOutcome, now: nat, again: FetchOutcome, nowAgain: nat)
    requires Handle(cfg, req, Some(entries), answer, now).stored.Some?
    ensures var x := Handle(cfg, req, Some(entries), answer, now);
      Handle(cfg, req, Some(Stored(entries, x.stored)), again, nowAgain) == Exchange(Some(HitResponse(x.response.value)), None, None)
  {
    StoredExactlyWhen(cfg, req, Some(entries), answer, now);
    var x := Handle(cfg, req, Some(entries), answer, now);
    var entries' := Stored(entries, x.stored);
    assert Hit(cfg, req, Some(entries'));
    HitServedFromCache(cfg, req, Some(entries'), again, nowAgain);
  }

  /**
   * On a miss, a thrown fetch is a 502 gateway error and a refused upstream
   * status is passed on as an error with that status (neither is stored:
   * see `StoredExactlyWhen`).
   */
  lemma UpstreamFailures(cfg: Config, req: Request, store: Option<map<CacheKey, Response>>,
                         answer: FetchOutcome, now: nat)
    requires Prepared(cfg, req) && !Hit(cfg, req, store)
    ensures var x := Handle(cfg, req, store, answer, now);
      answer.Threw? ==> x.response == Some(ErrorResponse(GatewayMessage(answer.message), 502))
    ensures var x := Handle(cfg, req, store, answer, now);
      answer.Fetched? && UpstreamRejected(answer.response.status) ==>
        x.response == Some(ErrorResponse(UpstreamErrorMessage(answer.response.status), answer.response.status))
  {
    var g := Admit(cfg, req);
    ServeFails(cfg, req, g.target, g.params, store, answer, now);
  }

  /**
   * On a miss the upstream answered with 2xx, 206 or 304, the client gets
   * the miss response built from that answer.
   */
  lemma UpstreamAnswered(cfg: Config, req: Request, store: Option<map<CacheKey, Response>>,
                         answer: FetchOutcome, now: nat)
    requires Prepared(cfg, req) && !Hit(cfg, req, store)
    requires answer.Fetched? && !UpstreamRejected(answer.response.status)
    ensures var g := Admit(cfg, req);
      Handle(cfg, req, store, answer, now).response ==
        Some(MissResponse(cfg, g.target, g.params, FinalDisposition(g.params.disposition), Lookup(req.headers, "Range"),
                          ChannelFor(cfg.urls, cfg.rules, g.target).name, answer.response, now))
  {
  }

  // ---------------------------------------------------------------- the response on a hit

  lemma LowerXProxyCache() ensures Lower("X-Proxy-Cache") == "x-proxy-cache" {}

  /**
   * A hit keeps the stored status, body and headers, except that
   * `X-Proxy-Cache` now says `HIT`; the CORS block is set again.
   */
  lemma HitResponseShape(cached: Response)
    ensures var r := HitResponse(cached);
      && r.status == cached.status && r.body == cached.body
      && Lookup(r.headers, "X-Proxy-Cache") == Some("HIT")
      && forall k :: k != "x-proxy-cache" && k !in Names(CORS_HEADERS) ==> Entry(r.headers, k) == Entry(cached.headers, k)
  {
    LowerXProxyCache();
    var m := With(cached.headers, "X-Proxy-Cache", "HIT");
    NotCorsName("x-proxy-cache");
    CallerHeadersKept(m, "x-proxy-cache");
    forall k | k != "x-proxy-cache" && k !in Names(CORS_HEADERS)
      ensures Entry(HitResponse(cached).headers, k) == Entry(cached.headers, k)
    {
      CallerHeadersKept(m, k);
    }
  }

  // ---------------------------------------------------------------- the response on a miss

  lemma LowerXProxyCacheTtl() ensures Lower("X-Proxy-Cache-Ttl") == "x-proxy-cache-ttl" {}
  lemma LowerXProxyChannel() ensures Lower("X-Proxy-Channel") == "x-proxy-channel" {}
  lemma LowerVary() ensures Lower("Vary") == "vary" {}
  lemma LowerContentDisposition() ensures Lower("Content-Disposition") == "content-disposition" {}
  lemma LowerCacheControl() ensures Lower("Cache-Control") == "cache-control" {}
  lemma LowerContentType() ensures Lower("Content-Type") == "content-type" {}
  lemma LowerContentRange() ensures Lower("Content-Range") == "content-range" {}
  lemma LowerContentLength() ensures Lower("Content-Length") == "content-length" {}

  /** Every CORS header name starts with `a`, so a name that does not is left to the caller. */
  lemma NotCorsName(k: string)
    requires k == [] || k[0] != 'a'
    ensures k !in Names(CORS_HEADERS)
  {
    forall i | 0 <= i < |CORS_HEADERS| ensures Lower(CORS_HEADERS[i].0)[0] == 'a' {
      assert CORS_HEADERS[i].0[0] == 'A';
    }
  }

  /** The names the proxy itself sets on a miss. */
  const PROXY_NAMES: set<string> :=
    {"cache-control", "content-disposition", "vary", "x-proxy-cache", "x-proxy-cache-ttl", "x-proxy-channel"}

  /** The proxy's own names, and `content-type`, are not CORS names. */
  lemma ProxyNamesNotCors(k: string)
    requires k in PROXY_NAMES || k == "content-type" || k == "content-range" || k == "content-length"
    ensures k !in Names(CORS_HEADERS)
  {
    NotCorsName(k);
  }

  /** After the pass-through step, a header is the upstream's when whitelisted and not cut by the normalisation. */
  lemma PassedEntry(up: UpstreamResponse, clientRange: Option<string>, k: string)
    ensures Entry(PassedHeaders(up, clientRange), k) ==
      if k in up.headers && k in PASS_THROUGH_HEADERS
         && !(NeedsNormalize(up.status, clientRange) && (k == "content-range" || k == "content-length"))
      then Some(up.headers[k]) else None
  {
    LowerContentRange();
    LowerContentLength();
  }

  /** `content-type` is whitelisted and never cut, so it passes through as the upstream sent it. */
  lemma PassedContentType(up: UpstreamResponse, clientRange: Option<string>)
    ensures Entry(PassedHeaders(up, clientRange), "content-type") == Entry(up.headers, "content-type")
  {
    PassedEntry(up, clientRange, "content-type");
  }

  /** Re-typing touches `content-type` only. */
  lemma RetypedEntry(m: HeaderMap, f: Miss, k: string)
    ensures Entry(Retyped(m, f), k) ==
      if k == "content-type" && f.rawType == OCTET_STREAM && MimeTypeFor(f.ext).Some? then Some(f.contentType)
      else Entry(m, k)
  {
    LowerContentType();
  }

  /**
   * The `content-type` after re-typing: the table type of the path's
   * extension for an octet-stream response whose extension the table knows,
   * and the header as it was otherwise.
   */
  lemma RetypedContentType(m: HeaderMap, f: Miss)
    ensures Entry(Retyped(m, f), "content-type") ==
      if f.rawType == OCTET_STREAM && MimeTypeFor(f.ext).Some? then Some(f.contentType) else Entry(m, "content-type")
  {
    RetypedEntry(m, f, "content-type");
  }

  /** The annotations leave every header but the proxy's own names alone. */
  lemma AnnotatedOthers(m: HeaderMap, f: Miss, disposition: string, now: nat, channelName: string, k: string)
    requires k !in PROXY_NAMES
    ensures Entry(Annotated(m, f, disposition, now, channelName), k) == Entry(m, k)
  {
    LowerCacheControl();
    LowerContentDisposition();
    LowerVary();
    LowerXProxyCache();
    LowerXProxyCacheTtl();
    LowerXProxyChannel();
  }

  /** The annotations keep an existing `Cache-Control` and add the proxy's own headers. */
  lemma AnnotatedOwn(m: HeaderMap, f: Miss, disposition: string, now: nat, channelName: string)
    ensures var a := Annotated(m, f, disposition, now, channelName);
      && Entry(a, "cache-control") ==
           (if "cache-control" in m then Some(m["cache-control"]) else Some(CacheControlValue(f.ttls)))
      && Entry(a, "content-disposition") == Some(DispositionValue(disposition, now, f.ext))
      && Entry(a, "vary") == Some("Origin, Range")
      && Entry(a, "x-proxy-cache") == Some("MISS")
      && Entry(a, "x-proxy-cache-ttl") == Some(TtlHeaderValue(f.ttls))
      && Entry(a, "x-proxy-channel") == Some(channelName)
  {
    LowerCacheControl();
    LowerContentDisposition();
    LowerVary();
    LowerXProxyCache();
    LowerXProxyCacheTtl();
    LowerXProxyChannel();
  }

  /** The headers of a miss response are those `MissHeaders` computes, under the CORS block. */
  lemma MissEntry(cfg: Config, target: string, p: Params, disposition: string, clientRange: Option<string>,
                  channelName: string, up: UpstreamResponse, now: nat, k: string)
    requires k !in Names(CORS_HEADERS)
    ensures Entry(MissResponse(cfg, target, p, disposition, clientRange, channelName, up, now).headers, k) ==
      Entry(MissHeaders(cfg, target, p, disposition, clientRange, channelName, up, now), k)
  {
    CallerHeadersKept(MissHeaders(cfg, target, p, disposition, clientRange, channelName, up, now), k);
  }

  /** A header that is neither the proxy's own nor CORS is what re-typing left. */
  lemma MissRetyped(cfg: Config, target: string, p: Params, disposition: string, clientRange: Option<string>,
                    channelName: string, up: UpstreamResponse, now: nat, k: string)
    requires k !in Names(CORS_HEADERS) && k !in PROXY_NAMES
    ensures var f := MissFacts(cfg, target, p, BareContentType(up.headers));
      Entry(MissResponse(cfg, target, p, disposition, clientRange, channelName, up, now).headers, k) ==
        Entry(Retyped(PassedHeaders(up, clientRange), f), k)
  {
    var f := MissFacts(cfg, target, p, BareContentType(up.headers));
    AnnotatedOthers(Retyped(PassedHeaders(up, clientRange), f), f, disposition, now, channelName, k);
    MissEntry(cfg, target, p, disposition, clientRange, channelName, up, now, k);
  }

  /** A header that is neither the proxy's own, nor `content-type`, nor CORS is what the pass-through step left. */
  lemma MissPassed(cfg: Config, target: string, p: Params, disposition: string, clientRange: Option<string>,
                   channelName: string, up: UpstreamResponse, now: nat, k: string)
    requires k !in Names(CORS_HEADERS) && k !in PROXY_NAMES && k != "content-type"
    ensures Entry(MissResponse(cfg, target, p, disposition, clientRange, channelName, up, now).headers, k) ==
      Entry(PassedHeaders(up, clientRange), k)
  {
    MissRetyped(cfg, target, p, disposition, clientRange, channelName, up, now, k);
    RetypedEntry(PassedHeaders(up, clientRange), MissFacts(cfg, target, p, BareContentType(up.headers)), k);
  }

  /**
   * The annotations of a miss: `X-Proxy-Cache: MISS`, `Vary: Origin, Range`,
   * the channel, the two lifetimes and the download file name.
   */
  lemma MissAnnotations(cfg: Config, target: string, p: Params, disposition: string, clientRange: Option<string>,
                        channelName: string, up: UpstreamResponse, now: nat)
    ensures var r := MissResponse(cfg, target, p, disposition, clientRange, channelName, up, now);
      var f := MissFacts(cfg, target, p, BareContentType(up.headers));
      && r.body == up.body && r.status == EmittedStatus(up.status, clientRange)
      && Lookup(r.headers, "X-Proxy-Cache") == Some("MISS")
      && Lookup(r.headers, "Vary") == Some("Origin, Range")
      && Lookup(r.headers, "X-Proxy-Channel") == Some(channelName)
      && Lookup(r.headers, "X-Proxy-Cache-Ttl") == Some(TtlHeaderValue(f.ttls))
      && Lookup(r.headers, "Content-Disposition") == Some(DispositionValue(disposition, now, f.ext))
  {
    var f := MissFacts(cfg, target, p, BareContentType(up.headers));
    AnnotatedOwn(Retyped(PassedHeaders(up, clientRange), f), f, disposition, now, channelName);
    LowerXProxyCache();
    LowerVary();
    LowerXProxyChannel();
    LowerXProxyCacheTtl();
    LowerContentDisposition();
    ProxyNamesNotCors("x-proxy-cache");
    ProxyNamesNotCors("vary");
    ProxyNamesNotCors("x-proxy-channel");
    ProxyNamesNotCors("x-proxy-cache-ttl");
    ProxyNamesNotCors("content-disposition");
    MissEntry(cfg, target, p, disposition, clientRange, channelName, up, now, "x-proxy-cache");
    MissEntry(cfg, target, p, disposition, clientRange, channelName, up, now, "vary");
    MissEntry(cfg, target, p, disposition, clientRange, channelName, up, now, "x-proxy-channel");
    MissEntry(cfg, target, p, disposition, clientRange, channelName, up, now, "x-proxy-cache-ttl");
    MissEntry(cfg, target, p, disposition, clientRange, channelName, up, now, "content-disposition");
  }

  /** `Cache-Control` is the upstream's when it sent one, and the proxy's lifetimes otherwise. */
  lemma MissCacheControl(cfg: Config, target: string, p: Params, disposition: string, clientRange: Option<string>,
                         channelName: string, up: UpstreamResponse, now: nat)
    ensures var r := MissResponse(cfg, target, p, disposition, clientRange, channelName, up, now);
      var f := MissFacts(cfg, target, p, BareContentType(up.headers));
      Lookup(r.headers, "Cache-Control") ==
        if "cache-control" in up.headers then Some(up.headers["cache-control"]) else Some(CacheControlValue(f.ttls))
  {
    var f := MissFacts(cfg, target, p, BareContentType(up.headers));
    var passed := PassedHeaders(up, clientRange);
    AnnotatedOwn(Retyped(passed, f), f, disposition, now, channelName);
    RetypedEntry(passed, f, "cache-control");
    PassedEntry(up, clientRange, "cache-control");
    LowerCacheControl();
    ProxyNamesNotCors("cache-control");
    MissEntry(cfg, target, p, disposition, clientRange, channelName, up, now, "cache-control");
  }

  /**
   * A 206 the client did not ask for becomes a 200 without `Content-Range`
   * and `Content-Length`; otherwise the status and both headers are the upstream's.
   */
  lemma MissRange(cfg: Config, target: string, p: Params, disposition: string, clientRange: Option<string>,
                  channelName: string, up: UpstreamResponse, now: nat)
    ensures var r := MissResponse(cfg, target, p, disposition, clientRange, channelName, up, now);
      && (NeedsNormalize(up.status, clientRange) ==>
            r.status == 200 && Lookup(r.headers, "Content-Range").None? && Lookup(r.headers, "Content-Length").None?)
      && (!NeedsNormalize(up.status, clientRange) ==>
            && r.status == up.status
            && Lookup(r.headers, "Content-Range") == Entry(up.headers, "content-range")
            && Lookup(r.headers, "Content-Length") == Entry(up.headers, "content-length"))
  {
    MissRangeHeader(cfg, target, p, disposition, clientRange, channelName, up, now, "content-range");
    MissRangeHeader(cfg, target, p, disposition, clientRange, channelName, up, now, "content-length");
    LowerContentRange();
    LowerContentLength();
  }

  /** One of the two range-framing headers of a miss response. */
  lemma MissRangeHeader(cfg: Config, target: string, p: Params, disposition: string, clientRange: Option<string>,
                        channelName: string, up: UpstreamResponse, now: nat, k: string)
    requires k == "content-range" || k == "content-length"
    ensures Entry(MissResponse(cfg, target, p, disposition, clientRange, channelName, up, now).headers, k) ==
      if NeedsNormalize(up.status, clientRange) then None else Entry(up.headers, k)
  {
    ProxyNamesNotCors(k);
    MissPassed(cfg, target, p, disposition, clientRange, channelName, up, now, k);
    PassedEntry(up, clientRange, k);
  }

  /**
   * No other upstream header reaches the client: a name outside the
   * whitelist, the CORS block and the proxy's own names is absent.
   */
  lemma MissLeaksNothing(cfg: Config, target: string, p: Params, disposition: string, clientRange: Option<string>,
                         channelName: string, up: UpstreamResponse, now: nat, k: string)
    requires k !in PASS_THROUGH_HEADERS && k !in Names(CORS_HEADERS) && k !in PROXY_NAMES
    ensures Entry(MissResponse(cfg, target, p, disposition, clientRange, channelName, up, now).headers, k).None?
  {
    MissPassed(cfg, target, p, disposition, clientRange, channelName, up, now, k);
    PassedEntry(up, clientRange, k);
  }
}
