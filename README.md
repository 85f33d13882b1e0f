# ucks video proxy — a Dafny model

This project models the core of a small edge proxy for media files. A
browser asks it for a remote video, image or audio file, either with a GET or
HEAD request whose query carries `url`, `disposition`, `cache` and `ttl`, or
with a POST whose JSON body carries those fields and extra `headers`. The
proxy then works in these steps:

1. It answers CORS preflights and refuses methods it does not serve.
2. It checks the target host and the caller's `Referer` against allow-lists.
3. It disguises the upstream request as Chrome 131 on Windows. The
   fingerprint depends on the kind of resource the target's path suggests.
4. It layers over the fingerprint the headers of the first matching
   *channel*, a per-site rule such as the xinpianchang CDN's `Referer`,
   `Origin` and `Range`. Over those come the client's conditional headers,
   then the body's headers.
5. It consults the edge cache, then fetches the upstream.
6. It turns a 206 the client did not ask for into a 200.
7. It passes only whitelisted upstream headers through.
8. It re-infers the type of an `application/octet-stream` response from the
   path.
9. It computes browser and CDN lifetimes and adds its own `Cache-Control`,
   `Content-Disposition`, `Vary` and `X-Proxy-*` headers. Every response
   gets the CORS block.
10. It stores successful cacheable responses.

The model has one module per source file:

- `Mime`: the MIME table, extension inference and default lifetimes.
- `Security`: the allow-lists.
- `Channels`: the rule table and its engine.
- `BrowserHeaders`: the fingerprints.
- `Responses`: `createResponse`, `createError`, the cache key and the
  header whitelist.
- `Proxy`: the handler.

Three modules support them:

- `Wrappers` holds `Option`.
- `Strings` holds the JavaScript string primitives used.
- `Http` holds `Headers` as a class over a lower-cased map, URLs and
  responses.

`HandlerProperties` states what the whole handler promises.

The handler is built in two layers. `Proxy.Handle` is a function from these
inputs to an `Exchange`:

- the configuration;
- the request;
- the cache contents;
- the upstream's answer;
- the clock.

The `Exchange` holds the response, the upstream request made (if any) and the
cache write (if any). `Proxy.HandleRequest` is the step-by-step handler over
`Headers` objects updated in place and an `EdgeCache` object, and it is
proved to agree with `Handle`.

The model leaves two things abstract:

- `new URL(...)` is a pair of functions supplied in the configuration
  (`Http.UrlSyntax`): one parses, one resolves against a dummy base. `None`
  stands for a thrown `TypeError`.
- `fetch` is the `answer` parameter: a response or a throw.

`Date.now()` is the `now` parameter.

The shipped host list is the wildcard `'*'` (src/utils/security.js:8), which
admits every target: the host check returns before it parses the target
(src/utils/security.js:24). A target that does not parse is therefore admitted
when no `Referer` is sent, and `Proxy.ShippedConfigAdmitsUnparsableTarget`
states it. What the upstream then answers is the `answer` parameter; the model
does not tie it to whether the target parses.

The loop at src/core/proxy.js:80 that sets the body's headers runs outside the
handler's `try`. A header name or value that `Headers` refuses makes it throw,
and the handler then answers nothing: its promise is rejected. The model
represents that outcome as an absent response (`None`).

## Model

| member | source | states |
|---|---|---|
| Strings.Lower | src/utils/mime.js:33 | `toLowerCase` keeps the length, maps each character to its lower-case form and leaves no upper-case ASCII letter |
| Strings.LowerOfLower | src/core/response.js:64 | lower-casing a name that is already lower-case (as every name a `Headers` object yields) changes nothing |
| Strings.AfterLast | src/utils/mime.js:33 | `split(c).pop()` is the longest `c`-free suffix: it has no `c`, ends the string, and is preceded by `c` when shorter than the string |
| Strings.AfterLastOfTail | src/utils/mime.js:33 | for `stem + c + tail` with a `c`-free tail, `split(c).pop()` is exactly the tail |
| Strings.BeforeFirst | src/utils/mime.js:33 | `split(c)[0]` is the longest `c`-free prefix: it has no `c`, starts the string, and is followed by `c` when shorter |
| Strings.TrimStart | src/core/response.js:67 | removes only leading white space, and leaves a string that does not start with white space |
| Strings.TrimEnd | src/core/response.js:67 | removes only trailing white space, and leaves a string that does not end with white space |
| Strings.Trim | src/core/response.js:67 | `trim()` cuts one slice out of the text: everything before it and after it is white space, and neither end of the slice is white space |
| Strings.NatToString | src/core/proxy.js:143 | `String(n)` for a lifetime is the canonical decimal text of `n`: non-empty digits without a leading zero whose value is `n` |
| Strings.ParseInt | src/core/proxy.js:139 | an integer text is a number exactly when it is a non-empty run of digits after at most one sign; its value is that of the digits, negated after `-` |
| Strings.ParseIntOfNatToString | src/core/proxy.js:149 | reading back the decimal text of a lifetime gives that lifetime (round trip) |
| Strings.JsNumber | src/core/proxy.js:139 | `Number(s)` ignores surrounding white space, reads a blank text as 0, and otherwise reads the trimmed text as a signed decimal integer |
| Strings.JsNumberOfDigits | src/core/proxy.js:139 | a text of decimal digits is read as its value |
| Strings.TrimKeepsOut | src/core/response.js:67 | trimming adds no character: one absent from the text is absent from the result |
| Http.SetAllEntry | src/core/channel-rules.js:30-32 | after a loop of `headers.set(key, value)`, a name holds the value of the last entry naming it (case aside), or keeps its old value when no entry names it |
| Http.SetAllNamed | src/core/channel-rules.js:30-32 | every name the entries mention ends up with the last value given for it |
| Http.SetAllOthers | src/core/channel-rules.js:30-32 | every name the entries do not mention keeps its value or stays absent |
| Http.SetAllConcat | src/core/proxy.js:64-80 | setting two lists of entries one after the other is setting their concatenation |
| Http.SetAllKeys | src/core/proxy.js:64 | setting entries adds exactly their lower-cased names to the keys |
| Http.SetAllDistinct | src/core/browser-headers.js:6-15 | when no two entries share a name, every entry's value survives |
| Http.SetAllDistinctCount | src/core/browser-headers.js:6-15 | entries with distinct names give one header per entry |
| Http.LastValueConcat | src/core/proxy.js:70-80 | in a later layer a name's last value wins over an earlier layer's |
| Http.Headers.constructor | src/core/proxy.js:113 | `new Headers()` is empty |
| Http.Headers.Copy | src/core/proxy.js:91 | `new Headers(other)` holds the other's headers |
| Http.Headers.Of | src/core/proxy.js:64 | `new Headers(record)` for a record whose names are distinct holds the record's entries set in order |
| Http.Headers.Set | src/core/proxy.js:71 | `set` replaces the lower-cased name's value and changes nothing else |
| Http.Headers.TrySet | src/core/proxy.js:80 | `set` succeeds exactly when the name is a valid token and the value a valid header value; then it replaces the lower-cased name's value, and otherwise it throws and changes nothing |
| Http.Headers.Delete | src/core/proxy.js:118-119 | `delete` removes the lower-cased name and changes nothing else |
| Http.FirstValue | src/core/proxy.js:18-21 | `searchParams.get(name)`, like `MIME_TYPES[t]` at src/utils/mime.js:28-29, is the value of the first pair with that key; it is `null` only when no pair has the key |
| Mime.KeyOf | src/core/proxy.js:129 | the `find` over the table's entries returns the key of the first entry with that extension; it returns nothing only when no entry has it |
| Mime.KeyOfFirstValue | src/core/proxy.js:129 | in a table without repeated keys or values, the forward and the inverse lookups agree, in both directions |
| Mime.MimeTypesDistinct | src/utils/mime.js:5-13 | the MIME table repeats no type |
| Mime.MimeExtensionsDistinct | src/utils/mime.js:5-13 | the MIME table repeats no extension |
| Mime.MimeTableOneToOne | src/utils/mime.js:5-13 | the MIME table is one-to-one |
| Mime.TableExtensionsShaped | src/utils/mime.js:5-13 | every table extension is lower-case and 2 to 5 characters long |
| Mime.MimeExtensionShape | src/utils/mime.js:28-29 | an extension the table gives is well shaped |
| Mime.MimeTypeRoundTrip | src/core/proxy.js:129 | the type found for an extension is the type whose table extension it is, and only then |
| Mime.GetExtension | src/utils/mime.js:25-37 | the result is lower-case and 2 to 5 characters long. A known type other than octet-stream gives its table extension. Otherwise the extension of the resolved path is returned when it has 2 to 5 characters, and `bin` when the path does not resolve or its extension is shorter or longer |
| Mime.ExtensionFromDottedPath | src/utils/mime.js:31-34 | without a usable type, a path ending in `.tail` (tail short, dot-free and `?`-free) gives the tail lower-cased |
| Mime.PathExtensionOfDotted | src/utils/mime.js:33 | the path's extension is its lower-cased text after the last dot |
| Mime.PathExtension | src/utils/mime.js:33 | the text taken from the path is lower-case, no longer than the path, and holds neither a dot nor a `?` |
| Mime.ExtensionOfMp4 | src/utils/mime.js:28-29 | `video/mp4` gives `mp4` whatever the path |
| Mime.ExtensionOfJpgPath | src/utils/mime.js:31-34 | an octet-stream type and a path ending in `.jpg` give `jpg` |
| Mime.GetResourceType | src/utils/mime.js:45-52 | the kind is image, video or audio exactly when that kind's prefix or extension set holds and no earlier kind's does; it is other exactly when none holds |
| Mime.ImageExtensionWins | src/utils/mime.js:48 | an image extension makes the kind image whatever the content type says |
| Mime.ExtensionSetsDisjoint | src/utils/mime.js:15-17 | the image, video and audio extension sets are pairwise disjoint |
| Mime.TableExtensionsClassified | src/utils/mime.js:5-17 | every table extension except `bin` lies in exactly one of the three sets |
| Mime.GetDefaultTtls | src/utils/mime.js:60-64 | images get a day and thirty days and every other kind an hour and a day; the browser lifetime never exceeds the CDN's |
| Security.AnyDomainMatches | src/utils/security.js:27 | `some` holds exactly when one list entry is the hostname or a parent domain of it |
| Security.IsHostAllowed | src/utils/security.js:23-31 | the wildcard admits everything. Otherwise an unparsable URL is refused, and a parsed one is admitted exactly when its hostname is a listed domain or a subdomain of one |
| Security.DomainMatches | src/utils/security.js:27 | a hostname matches a listed domain exactly when it equals it or ends with a dot followed by it |
| Security.IsReferrerAllowed | src/utils/security.js:39-42 | a missing or empty `Referer` passes; any other is admitted exactly when the host check admits it |
| Security.AllowListMonotone | src/utils/security.js:23-31 | adding entries to an allow-list never refuses a URL it admitted |
| Security.SubdomainsOnly | src/utils/security.js:27 | `a.ucks.cn` matches `ucks.cn` but `evilucks.cn` does not |
| Security.ShippedHostsAdmitEverything | src/utils/security.js:8 | the shipped host list admits every target, including one that does not parse |
| Security.ShippedReferrersAdmitSubdomains | src/utils/security.js:10-15 | a referrer on any subdomain of ucks.cn is admitted by the shipped list |
| Channels.FirstMatchingRule | src/core/channel-rules.js:13-17 | the rule returned matches and no earlier rule does; nothing is returned only when no rule matches |
| Channels.ChannelFor | src/core/channel-rules.js:10-20 | the channel is a table rule or the default, and is the default when the URL does not parse |
| Channels.ChannelForFirstMatch | src/core/channel-rules.js:13-17 | the first rule to match the target's hostname is the one chosen |
| Channels.ChannelForNoMatch | src/core/channel-rules.js:18-19 | when no rule matches, the default channel is chosen |
| Channels.MatchChannel | src/core/channel-rules.js:10-20 | the loop returns the first matching rule, or the default channel |
| Channels.ApplyChannelHeaders | src/core/channel-rules.js:28-34 | the matched channel is returned and its headers are set in order over the existing ones |
| Channels.AppliedChannelHeaders | src/core/channel-rules.js:30-32 | a name the channel sets takes the channel's last value for it; every other name is unchanged |
| Channels.DefaultChannelKeepsHeaders | src/config/channels.js:33-36 | the default channel changes no header |
| Channels.XinpianchangHeaders | src/config/channels.js:10-18 | the xinpianchang rule sets its `Referer`, `Origin` and `Range: bytes=0-` |
| Channels.XpccdnIsXinpianchang | src/config/channels.js:12 | xpccdn.com and its subdomains get the xinpianchang channel |
| BrowserHeaders.FingerprintDistinct | src/core/browser-headers.js:18-45 | no two fingerprint headers share a name, so the object spread overrides nothing |
| BrowserHeaders.FingerprintKeepsBase | src/core/browser-headers.js:18-45 | every fingerprint carries all eight base headers with their values |
| BrowserHeaders.HintedShape | src/core/browser-headers.js:18-45 | a fingerprint holds exactly eleven headers, one per entry, with `Accept-Encoding: identity` |
| BrowserHeaders.FingerprintShape | src/core/browser-headers.js:52-62 | every kind's fingerprint has exactly its eleven names and asks for an unencoded body |
| BrowserHeaders.FingerprintHints | src/core/browser-headers.js:52-62 | video and audio get the video `Accept`, `Sec-Fetch-Dest` and `Sec-Fetch-Mode`, images the image ones, and the rest `*/*`, `empty` and `cors` |
| BrowserHeaders.AudioLikeVideo | src/core/browser-headers.js:54-56 | audio is fetched with exactly the video headers |
| BrowserHeaders.HintsApplied | src/core/browser-headers.js:18-45 | the eight base headers followed by the three fetch hints have eleven distinct names, start with the base headers, and carry the given `Accept`, `Sec-Fetch-Dest` and `Sec-Fetch-Mode` |
| BrowserHeaders.BuildVideoHeaders | src/core/browser-headers.js:18-25 | the video fingerprint is the base headers with the video `Accept`, `Sec-Fetch-Dest: video` and `Sec-Fetch-Mode: no-cors`, eleven distinct names |
| BrowserHeaders.BuildImageHeaders | src/core/browser-headers.js:28-35 | the image fingerprint is the base headers with the image `Accept`, `Sec-Fetch-Dest: image` and `Sec-Fetch-Mode: no-cors`, eleven distinct names |
| BrowserHeaders.BuildGenericHeaders | src/core/browser-headers.js:38-45 | the generic fingerprint is the base headers with `Accept: */*`, `Sec-Fetch-Dest: empty` and `Sec-Fetch-Mode: cors`, eleven distinct names |
| BrowserHeaders.BuildBrowserHeaders | src/core/browser-headers.js:52-62 | each kind gets the base headers with the fetch hints chosen for it: video and audio the video ones, images the image ones, the rest the generic ones |
| Responses.CorsDistinct | src/core/response.js:3-9 | the CORS names are distinct |
| Responses.CorsWins | src/core/response.js:26 | every CORS header holds its CORS value whatever the caller supplied |
| Responses.CallerHeadersKept | src/core/response.js:25-26 | every non-CORS caller header keeps its value, and an absent one stays absent |
| Responses.CreateResponse | src/core/response.js:24-28 | the status and body are the caller's. Every CORS header holds its CORS value. Every other header is the caller's |
| Responses.CreateResponseDefaults | src/core/response.js:24 | the defaults are status 200 and no caller headers |
| Responses.ErrorResponseShape | src/core/response.js:36-38 | an error carries its status, the `{ error }` body, `Content-Type: application/json` and the CORS block |
| Responses.CreateError | src/core/response.js:36-38 | the method builds that error response |
| Responses.CreateErrorDefault | src/core/response.js:36 | without a status an error is a 403 |
| Responses.BuildCacheKeyRequest | src/core/response.js:47-53 | the key is a GET on the proxy's origin and path whose query is exactly `url` and `disposition` with the given values |
| Responses.CacheKeyIgnoresQuery | src/core/response.js:49 | request URLs differing only in their query give the same key |
| Responses.CacheKeyInjective | src/core/response.js:47-53 | equal keys mean equal target, disposition, origin and path |
| Responses.ExtractPassThroughHeaders | src/core/response.js:61-71 | exactly the whitelisted upstream headers are added to the response headers; the returned type is the upstream type cut at `;` and trimmed, or octet-stream when there is none |
| Responses.BareContentType | src/core/response.js:62-70 | the returned type never holds a `;`, and is octet-stream when the upstream sent no `Content-Type` |
| Responses.PlainContentTypeUnchanged | src/core/response.js:67 | a type without parameters or surrounding space is returned as it came |
| Proxy.ParseGetParams | src/core/proxy.js:16-24 | the target and `ttl` are the first query values, and the target counts as given exactly when it is non-empty. A truthy `disposition` is lower-cased, any other gives `attachment`, and the final disposition is `inline` exactly when the query's first `disposition` lower-cases to `inline`. Caching is off exactly when `cache=0`. There are no extra headers |
| Proxy.ParsePostBody | src/core/proxy.js:27-40 | an unparsable or `null` body, or a truthy `disposition` that is not a string (its lower-casing throws), gives the defaults. Otherwise: the target is a truthy `url` kept as it is, whatever its type, and counts as given exactly when the `url` is truthy; a truthy `disposition` is lower-cased, any other gives `attachment`; caching is off exactly when `cache` is `false`; `ttl` is the text of any value but `null`; `headers` are the body's object headers. The final disposition is `inline` exactly when the body asks for it |
| Proxy.Admit | src/core/proxy.js:50-59 | OPTIONS, an unsupported method, a missing (falsy) target, a refused host and a refused referrer are decided in that order, each outcome exactly when its condition and no earlier one holds; the host check and an admitted request use the text the target converts to |
| Proxy.UnparsedPostIsBadRequest | src/core/proxy.js:57 | a POST whose body does not parse is refused with 400 |
| Proxy.ShippedConfigAdmitsUnparsableTarget | src/core/proxy.js:58 | with the shipped lists, a target that does not parse is admitted when no `Referer` is sent |
| Proxy.CompositeUrlIsGiven | src/core/proxy.js:31-58 | a body `url` that is an array or object is never refused as missing, even when its text is empty, and the shipped lists admit it with that text as the target when no `Referer` is sent |
| Proxy.ClientHeader | src/core/proxy.js:70-77 | a client header is copied only when its value is truthy |
| Proxy.LayerPrecedence | src/core/proxy.js:64-80 | an upstream header takes its value from the highest layer that sets it: body headers, then client conditionals, then channel, then fingerprint |
| Proxy.ConditionalLayerRange | src/core/proxy.js:70-77 | the conditional layer carries the client's `Range` when it is truthy and no other `range` |
| Proxy.ClientRangeForwarded | src/core/proxy.js:70-80 | the client's `Range` reaches the upstream over the channel's, unless the body's headers set one |
| Proxy.ExtraHeadersWin | src/core/proxy.js:80 | the body's headers override every other upstream header |
| Proxy.BuildUpstreamHeaders | src/core/proxy.js:64-80 | the step-by-step `Headers` succeeds exactly when every body header has a valid name and value, and then is the four layers set in order; the matched channel is returned |
| Proxy.CopyClientHeader | src/core/proxy.js:70-77 | one guarded copy sets the client's value exactly when it is truthy |
| Proxy.FinalDisposition | src/core/proxy.js:83 | the disposition is `inline` exactly when asked for, and `attachment` otherwise |
| Proxy.PostNeverCacheable | src/core/proxy.js:84 | a POST is never cacheable |
| Proxy.IsCacheable | src/core/proxy.js:84 | a cacheable request has caching enabled, is a GET or HEAD (never a POST, and its method is forwarded unchanged) and carries no truthy `Range`; a request with caching enabled and no `Range` that is not cacheable is neither a GET nor a HEAD |
| Proxy.CacheabilityIgnoresUpstreamRange | src/core/proxy.js:84 | only the client's own `Range` affects cacheability, not one added by a channel or the body |
| Proxy.EdgeCache.constructor | src/core/proxy.js:85 | the cache starts empty |
| Proxy.EdgeCache.Put | src/core/proxy.js:157 | `put` stores the response under its key and changes no other entry |
| Proxy.UpstreamMethod | src/core/proxy.js:99 | a POST is forwarded as a GET; every other method is kept, so the upstream never sees a POST |
| Proxy.EmittedStatus | src/core/proxy.js:110-111 | a 206 without a client `Range` becomes 200, every other status is kept, and a 206 is only emitted to a client that sent `Range` |
| Proxy.UpstreamErrorMessage | src/core/proxy.js:105 | the message opens with `Upstream error: ` and the rest reads back as the status |
| Proxy.GatewayMessage | src/core/proxy.js:164 | the 502 message opens with `Gateway error: ` and goes on with the thrown `Error`'s message exactly, even an empty one, or with `Unknown error` when the thrown value is not an `Error` |
| Proxy.EffectiveContentType | src/core/proxy.js:127-134 | a type other than octet-stream is kept; octet-stream becomes the table type of the extension when there is one |
| Proxy.ResponseExtension | src/core/proxy.js:123-124 | the response's extension is well shaped; a known raw type other than octet-stream gives its table extension, and otherwise the target path's extension of 2 to 5 characters, or `bin` |
| Proxy.ClampTtl | src/core/proxy.js:139 | the clamp yields at most a day and keeps a value already within 0 to 86400 |
| Proxy.ResolveBrowserTtl | src/core/proxy.js:137-139 | without an override the default is used; with one the result is at most a day |
| Proxy.TtlFallsBackToDefault | src/core/proxy.js:139 | an override of `0`, empty text or non-number falls back to the clamped default |
| Proxy.TtlOverrideClamped | src/core/proxy.js:139 | a negative override gives 0, one over a day gives a day, and one within range is kept |
| Proxy.TtlOverrideOfDigits | src/core/proxy.js:139 | a lifetime written in decimal is read back as itself |
| Proxy.ResolveTtls | src/core/proxy.js:136-140 | the CDN lifetime is the larger of its default and the browser lifetime |
| Proxy.TtlHeaderRoundTrip | src/core/proxy.js:149 | `X-Proxy-Cache-Ttl` reads back as the two lifetimes, split at `/` |
| Proxy.CacheControlValue | src/core/proxy.js:143 | the default `Cache-Control` opens with `public, max-age=`, its `max-age` reads back as the browser lifetime up to the next comma, and it ends with the CDN lifetime as `s-maxage` and a week of `stale-while-revalidate` |
| Proxy.DispositionValue | src/core/proxy.js:146 | `Content-Disposition` opens with the disposition and `; filename="download_`, and the file name ends in the extension when it holds no dot |
| Proxy.MissFacts | src/core/proxy.js:123-140 | the extension is the one inferred for the raw type, the effective type is the retyped raw type of that extension, the lifetimes are the resolved defaults of that type and extension, and the CDN lifetime is at least the browser's |
| Proxy.PassUpstreamHeaders | src/core/proxy.js:110-120 | a fresh `Headers` holds the whitelisted upstream headers minus the range framing when a 206 is normalised; the bare type is returned |
| Proxy.Retype | src/core/proxy.js:123-140 | the extension, effective type and lifetimes are computed; `Content-Type` is rewritten only for an octet-stream response whose extension is in the table |
| Proxy.Annotate | src/core/proxy.js:142-150 | a default `Cache-Control` is added when the upstream sent none; then the disposition, `Vary` and `X-Proxy-*` headers are set |
| Proxy.RespondFromUpstream | src/core/proxy.js:110-154 | the step-by-step miss response equals the specified miss response |
| Proxy.Forward | src/core/proxy.js:97-165 | the fetch step gives the specified exchange: the request sent, a 502 on a throw, the error for a refused status, else the miss response, written to the cache only when storing |
| Proxy.PrepareUpstream | src/core/proxy.js:62-102 | preparing succeeds exactly when the body's headers are valid, and the upstream request is then made to the target with the forwarded method and the layered headers; the matched channel is returned |
| Proxy.Forwarded | src/core/proxy.js:97-165 | once the fetch is attempted the request sent is recorded and a response is given; a cache write happens only when storing, under the key, with the response returned |
| Proxy.Serve | src/core/proxy.js:62-165 | an admitted request gets no response exactly when its body's headers are invalid, and then nothing is sent or stored; a stored response is the one returned, and only with a cache and after a request was sent |
| Proxy.Handle | src/core/proxy.js:49-166 | an upstream request is made only for an admitted request; there is no response exactly when an admitted request's body headers are invalid; a cache write needs a cache and an upstream request, and stores the response returned |
| Proxy.LookupCache | src/core/proxy.js:88-95 | a cacheable request whose key the cache holds gets the stored response marked `HIT`, otherwise there is no hit |
| Proxy.ServeAdmitted | src/core/proxy.js:62-165 | an admitted request is served as the specification says; it is written to the cache only when a cache exists |
| Proxy.Validate | src/core/proxy.js:50-59 | the checks decide what `Admit` says |
| Proxy.Dispatch | src/core/proxy.js:49-165 | the step-by-step handler produces the response, upstream request and cache write that `Handle` specifies |
| Proxy.HandleRequest | src/core/proxy.js:49-166 | the response and upstream request are `Handle`'s, and the cache afterwards holds exactly `Handle`'s write over its old contents |
| HandlerProperties.TurnedAwayRequests | src/core/proxy.js:50-59 | a request that is not admitted contacts no upstream and stores nothing. OPTIONS gets an empty 204. Another unsupported method gets a 405 error. A rejection gets its status and message |
| HandlerProperties.UpstreamContactedOnMiss | src/core/proxy.js:80-102 | the upstream is contacted exactly when the request is admitted, its body's headers are valid, and the cache does not answer it |
| HandlerProperties.BodyHeadersThrow | src/core/proxy.js:80 | the handler answers nothing exactly when an admitted POST carries a body header that `Headers` refuses; nothing is then sent or stored |
| HandlerProperties.UpstreamSeesOutgoing | src/core/proxy.js:97-102 | any upstream request is the admitted target with the layered headers, and is never a POST |
| HandlerProperties.HitServedFromCache | src/core/proxy.js:88-95 | on a hit the stored response is returned marked `HIT`; nothing is fetched and nothing stored |
| HandlerProperties.StoredExactlyWhen | src/core/proxy.js:156-160 | a response is stored exactly when: the request is admitted and cacheable; a cache exists and misses; the upstream answered 2xx. It is stored under the request's key, as the response returned |
| HandlerProperties.PostNeverStored | src/core/proxy.js:84 | a POST never writes the cache |
| HandlerProperties.SecondRequestHits | src/core/proxy.js:88-95 | after a request stores its response, repeating it is answered from the cache with that response marked `HIT`, whatever the upstream would now say |
| HandlerProperties.UpstreamFailures | src/core/proxy.js:97-165 | on a miss, a throwing fetch gives a 502 gateway error, and a refused status gives an upstream error with that status |
| HandlerProperties.UpstreamAnswered | src/core/proxy.js:108-154 | on a miss with an accepted status, the response is the miss response built from the request's disposition, client `Range`, channel and the upstream's answer |
| HandlerProperties.HitResponseShape | src/core/proxy.js:91-93 | a hit keeps the stored status, body and every non-CORS header, except that `X-Proxy-Cache` says `HIT` |
| HandlerProperties.PassedEntry | src/core/proxy.js:113-120 | a header passes through exactly when the upstream sent it, it is whitelisted, and it is not range framing dropped by normalisation |
| HandlerProperties.PassedContentType | src/core/proxy.js:113-114 | the upstream `Content-Type` passes through unchanged |
| HandlerProperties.RetypedEntry | src/core/proxy.js:127-134 | retyping changes only `Content-Type`, and only for octet-stream with a known extension |
| HandlerProperties.RetypedContentType | src/core/proxy.js:127-134 | the emitted `Content-Type` is the inferred table type for octet-stream with a known extension, and the passed one otherwise |
| HandlerProperties.AnnotatedOthers | src/core/proxy.js:142-150 | annotation touches none but the proxy's own names |
| HandlerProperties.AnnotatedOwn | src/core/proxy.js:142-150 | annotation keeps an upstream `Cache-Control` or adds the computed one, and sets `Content-Disposition`, `Vary`, `X-Proxy-Cache: MISS`, `X-Proxy-Cache-Ttl` and `X-Proxy-Channel` |
| HandlerProperties.MissRetyped | src/core/proxy.js:113-134 | on a miss, every header other than the CORS and proxy names is the passed and retyped upstream header |
| HandlerProperties.MissPassed | src/core/proxy.js:113-120 | on a miss, every header other than the CORS and proxy names and `Content-Type` is exactly the passed upstream header |
| HandlerProperties.MissAnnotations | src/core/proxy.js:146-154 | a miss response has the upstream body, the emitted status, `X-Proxy-Cache: MISS`, `Vary`, the channel name, the lifetimes header and the disposition header |
| HandlerProperties.MissCacheControl | src/core/proxy.js:142-144 | the upstream `Cache-Control` wins; otherwise the computed lifetimes are announced |
| HandlerProperties.MissRange | src/core/proxy.js:110-120 | a normalised 206 is sent as 200 without `Content-Range` or `Content-Length`; otherwise the status and both headers are the upstream's |
| HandlerProperties.MissRangeHeader | src/core/proxy.js:116-120 | `Content-Range` and `Content-Length` are dropped exactly on normalisation and passed through otherwise |
| HandlerProperties.MissLeaksNothing | src/core/proxy.js:113-154 | no upstream header outside the whitelist, the CORS block and the proxy's own names reaches the client |

## Left out

- `toLowerCase` is modelled for ASCII letters only. Other characters are left as they are.
- `Number(ttl)` is modelled for trimmed, optionally signed decimal integers (empty text is 0). Fractions, exponents, hexadecimal and `Infinity` are read as not-a-number, so they fall back to the default lifetime.
- Proxy.ResolveBrowserTtl: a fractional override, which the source would emit as a fraction in `Cache-Control`, is not modelled. The reason is that lifetimes are natural numbers here.
- `trim()` is modelled with the ASCII white space, NBSP and BOM. Other Unicode space separators are not removed.
- Property names that JavaScript objects inherit (`constructor`, `__proto__` …) are not modelled. `MIME_TYPES[t]` finds only the table's own entries.
- `Headers` is modelled as a lower-cased map; the client's and the upstream's headers arrive with lower-cased names. Value normalisation (stripping surrounding white space) and the platform's iteration order are not modelled.
- Responses.ExtractPassThroughHeaders: the loop visits names in no particular order. The source visits them in sorted order, but each name occurs once, so the result does not depend on the order.
- URL parsing and serialisation are abstract (`Http.UrlSyntax`). The proxy's own URL is its origin, path and decoded query. Percent-encoding of the cache key's query is not modelled.
- JSON bodies are modelled by the fields the handler reads (`Proxy.JsonValue`). A number is given as the text `String` makes of it and is falsy only as `0`; an object or array is given as its `String` text and is always truthy, even when that text is empty (`[]`). A body that is not an object is a body with every field absent. Object-valued `headers` are given as their entries, each value already converted to text; the entries are in the order `Object.entries` yields them.
- Http.Headers.Of: a record with two names equal apart from case is not modelled; the platform would join their values.
- Http.Headers.TrySet: a value with leading or trailing white space is stored as given; the platform strips it. Values are checked as byte strings (no code point above U+00FF).
- Http.Headers.Set: assumes a valid name and value; every call other than the body's headers passes a constant or a value read from a `Headers` object.
- Proxy.Handle: the upstream's answer is the `answer` parameter and is not tied to whether the target parses; `fetch` would throw for a target that does not parse, which `HandlerProperties.UpstreamFailures` turns into a 502.
- `JSON.stringify` escaping of error messages is not modelled. An error body is the message itself.
- `fetch` is one answer for the one request made: a response whose status is between 200 and 599, or a throw. Redirects, streaming, aborts and network timing are not modelled.
- A throw other than from `fetch` inside the handler's `try` (for example from `cache.put` when it is awaited) is not modelled.
- Proxy.HandleRequest: the cache's eviction, expiry and `Cache-Control`-driven refusal to store are not modelled. A write is applied at once, whether `waitUntil` or `await` carries it. The lookup reads the contents the request started with.
- Proxy.CacheKeyFor: the source builds the cache key only for cacheable requests. The model computes it always, but uses it only when the request is cacheable.
- GET and HEAD requests for the same target share one cache key. A HEAD miss may store a response that a later GET would be served from. This is modelled as the code behaves; it is not claimed as a defect.
- HandlerProperties: the emitted `Content-Type` of a miss is stated in stages: `MissRetyped`, `RetypedContentType` and `PassedContentType`. It is not stated as one lemma about the whole miss response.
- The other deployment entry points (api/proxy.js, functions/proxy.js) only forward to `handleRequest`, and they are not part of this model.
