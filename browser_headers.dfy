/**
 * The browser fingerprint (src/core/browser-headers.js): a fixed set of
 * headers that makes an upstream request look like Chrome 131 on Windows,
 * completed by an `Accept`, `Sec-Fetch-Dest` and `Sec-Fetch-Mode` chosen by
 * the kind of resource being fetched.
 */
module BrowserHeaders {
  import opened Wrappers
  import opened Strings
  import opened Http
  import opened Mime

  const UA := "Mozilla/5.0 (Windows NT 10.0; Win64; x64) AppleWebKit/537.36 (KHTML, like Gecko) Chrome/131.0.0.0 Safari/537.36"
  const SEC_CH_UA := "\"Google Chrome\";v=\"131\", \"Chromium\";v=\"131\", \"Not_A Brand\";v=\"24\""

  const BASE_HEADERS: Entries := [
    ("User-Agent", UA),
    ("Accept-Language", "zh-CN,zh;q=0.9,en;q=0.8"),
    ("Accept-Encoding", "identity"),
    ("Connection", "keep-alive"),
    ("Sec-Fetch-Site", "cross-site"),
    ("Sec-Ch-Ua", SEC_CH_UA),
    ("Sec-Ch-Ua-Mobile", "?0"),
    ("Sec-Ch-Ua-Platform", "\"Windows\"")
  ]

  const VIDEO_ACCEPT := "video/webm,video/ogg,video/*;q=0.9,application/ogg;q=0.7,audio/*;q=0.6,*/*;q=0.5"
  const IMAGE_ACCEPT := "image/avif,image/webp,image/apng,image/svg+xml,image/*,*/*;q=0.8"
  const GENERIC_ACCEPT := "*/*"

  /**
   * The base headers spread into a new object followed by the three hint
   * keys; the keys are new, so they follow the base ones.
   */
  function WithFetchHints(accept: string, dest: string, mode: string): Entries {
    BASE_HEADERS + [("Accept", accept), ("Sec-Fetch-Dest", dest), ("Sec-Fetch-Mode", mode)]
  }

  /**
   * A fingerprint: the eight base headers in order, then three more, no two
   * names equal case aside, carrying the given `Accept`, `Sec-Fetch-Dest` and
   * `Sec-Fetch-Mode`.
   */
  predicate Hinted(es: Entries, accept: string, dest: string, mode: string) {
    && |es| == 11 && es[..8] == BASE_HEADERS
    && DistinctNames(es)
    && LastValue(es, "accept") == Some(accept)
    && LastValue(es, "sec-fetch-dest") == Some(dest)
    && LastValue(es, "sec-fetch-mode") == Some(mode)
  }

  function BuildVideoHeaders(): (es: Entries)
    ensures Hinted(es, VIDEO_ACCEPT, "video", "no-cors")
  {
    HintsApplied(VIDEO_ACCEPT, "video", "no-cors");
    WithFetchHints(VIDEO_ACCEPT, "video", "no-cors")
  }

  function BuildImageHeaders(): (es: Entries)
    ensures Hinted(es, IMAGE_ACCEPT, "image", "no-cors")
  {
    HintsApplied(IMAGE_ACCEPT, "image", "no-cors");
    WithFetchHints(IMAGE_ACCEPT, "image", "no-cors")
  }

  function BuildGenericHeaders(): (es: Entries)
    ensures Hinted(es, GENERIC_ACCEPT, "empty", "cors")
  {
    HintsApplied(GENERIC_ACCEPT, "empty", "cors");
    WithFetchHints(GENERIC_ACCEPT, "empty", "cors")
  }

  /**
   * `buildBrowserHeaders(resourceType)`: video and audio share the video
   * headers, images get the image headers and every other kind the generic ones.
   */
  function BuildBrowserHeaders(kind: ResourceKind): (es: Entries)
    ensures Hinted(es, FetchHintsFor(kind).0, FetchHintsFor(kind).1, FetchHintsFor(kind).2)
  {
    match kind
    case Video => BuildVideoHeaders()
    case Audio => BuildVideoHeaders()
    case Image => BuildImageHeaders()
    case Other => BuildGenericHeaders()
  }

  /** The lower-cased names of every fingerprint, in order. */
  const FINGERPRINT_NAMES: seq<string> := [
    "user-agent", "accept-language", "accept-encoding", "connection", "sec-fetch-site",
    "sec-ch-ua", "sec-ch-ua-mobile", "sec-ch-ua-platform",
    "accept", "sec-fetch-dest", "sec-fetch-mode"
  ]

  // One lemma per name: lower-casing a literal is cheap alone and costly in company.
  lemma LowerUserAgent() ensures Lower("User-Agent") == "user-agent" {}
  lemma LowerAcceptLanguage() ensures Lower("Accept-Language") == "accept-language" {}
  lemma LowerAcceptEncoding() ensures Lower("Accept-Encoding") == "accept-encoding" {}
  lemma LowerConnection() ensures Lower("Connection") == "connection" {}
  lemma LowerSecFetchSite() ensures Lower("Sec-Fetch-Site") == "sec-fetch-site" {}
  lemma LowerSecChUa() ensures Lower("Sec-Ch-Ua") == "sec-ch-ua" {}
  lemma LowerSecChUaMobile() ensures Lower("Sec-Ch-Ua-Mobile") == "sec-ch-ua-mobile" {}
  lemma LowerSecChUaPlatform() ensures Lower("Sec-Ch-Ua-Platform") == "sec-ch-ua-platform" {}
  lemma LowerAccept() ensures Lower("Accept") == "accept" {}
  lemma LowerSecFetchDest() ensures Lower("Sec-Fetch-Dest") == "sec-fetch-dest" {}
  lemma LowerSecFetchMode() ensures Lower("Sec-Fetch-Mode") == "sec-fetch-mode" {}

  /** The base headers' names, lower-cased, open `FINGERPRINT_NAMES`. */
  lemma BaseNames()
    ensures |BASE_HEADERS| == 8 && forall i :: 0 <= i < 8 ==> Lower(BASE_HEADERS[i].0) == FINGERPRINT_NAMES[i]
  {
    LowerUserAgent(); LowerAcceptLanguage(); LowerAcceptEncoding(); LowerConnection();
    LowerSecFetchSite(); LowerSecChUa(); LowerSecChUaMobile(); LowerSecChUaPlatform();
  }

  /** The fingerprint's names, lower-cased, are `FINGERPRINT_NAMES`. */
  lemma FingerprintNames(accept: string, dest: string, mode: string)
    ensures var es := WithFetchHints(accept, dest, mode);
      |es| == 11 && forall i :: 0 <= i < 11 ==> Lower(es[i].0) == FINGERPRINT_NAMES[i]
  {
    BaseNames();
    LowerAccept(); LowerSecFetchDest(); LowerSecFetchMode();
    var es := WithFetchHints(accept, dest, mode);
    assert forall i :: 0 <= i < 8 ==> es[i] == BASE_HEADERS[i];
  }

  /** No two fingerprint headers share a name, so none overrides another. */
  lemma FingerprintDistinct(accept: string, dest: string, mode: string)
    ensures DistinctNames(WithFetchHints(accept, dest, mode))
  {
    FingerprintNames(accept, dest, mode);
  }

  /** The base headers with any three hints form a fingerprint carrying those hints. */
  lemma HintsApplied(accept: string, dest: string, mode: string)
    ensures Hinted(WithFetchHints(accept, dest, mode), accept, dest, mode)
  {
    var es := WithFetchHints(accept, dest, mode);
    FingerprintDistinct(accept, dest, mode);
    FingerprintNames(accept, dest, mode);
    assert es[..8] == BASE_HEADERS;
    LastValueAt(es, 8);
    LastValueAt(es, 9);
    LastValueAt(es, 10);
  }

  /** The header map a fingerprint builds. */
  function Fingerprint(kind: ResourceKind): HeaderMap {
    SetAll(map[], BuildBrowserHeaders(kind))
  }

  /** Every fingerprint carries all eight base headers with their values. */
  lemma FingerprintKeepsBase(kind: ResourceKind, i: nat)
    requires i < |BASE_HEADERS|
    ensures Lookup(Fingerprint(kind), BASE_HEADERS[i].0) == Some(BASE_HEADERS[i].1)
  {
    var es := BuildBrowserHeaders(kind);
    assert es[i] == BASE_HEADERS[i];
    FingerprintDistinct(es[8].1, es[9].1, es[10].1);
    SetAllDistinct(map[], es, i);
  }

  /** Whatever the hints, the headers hold eleven keys, one per entry, with `Accept-Encoding: identity`. */
  lemma HintedShape(accept: string, dest: string, mode: string)
    ensures var es := WithFetchHints(accept, dest, mode);
      && SetAll(map[], es).Keys == Names(es)
      && |SetAll(map[], es)| == 11
      && Lookup(SetAll(map[], es), "Accept-Encoding") == Some("identity")
  {
    var es := WithFetchHints(accept, dest, mode);
    FingerprintDistinct(accept, dest, mode);
    SetAllDistinctCount(es);
    assert Lookup(SetAll(map[], es), "Accept-Encoding") == Some("identity") by {
      SetAllDistinct(map[], es, 2);
      LowerAcceptEncoding();
    }
  }

  /** Every fingerprint has exactly eleven headers, the names it lists, and asks for an unencoded body. */
  lemma FingerprintShape(kind: ResourceKind)
    ensures Fingerprint(kind).Keys == Names(BuildBrowserHeaders(kind))
    ensures |Fingerprint(kind)| == 11
    ensures Lookup(Fingerprint(kind), "Accept-Encoding") == Some("identity")
  {
    var (accept, dest, mode) := FetchHintsFor(kind);
    HintedShape(accept, dest, mode);
  }

  /** The `Accept`, `Sec-Fetch-Dest` and `Sec-Fetch-Mode` a kind's fingerprint carries. */
  function FetchHintsFor(kind: ResourceKind): (string, string, string) {
    match kind
    case Video => (VIDEO_ACCEPT, "video", "no-cors")
    case Audio => (VIDEO_ACCEPT, "video", "no-cors")
    case Image => (IMAGE_ACCEPT, "image", "no-cors")
    case Other => (GENERIC_ACCEPT, "empty", "cors")
  }

  /**
   * Video and audio get the video hints, images the image hints, and every
   * other kind the generic `Accept`, `empty` and `cors`.
   */
  lemma FingerprintHints(kind: ResourceKind)
    ensures Lookup(Fingerprint(kind), "Accept") == Some(FetchHintsFor(kind).0)
    ensures Lookup(Fingerprint(kind), "Sec-Fetch-Dest") == Some(FetchHintsFor(kind).1)
    ensures Lookup(Fingerprint(kind), "Sec-Fetch-Mode") == Some(FetchHintsFor(kind).2)
  {
    var es := BuildBrowserHeaders(kind);
    FingerprintDistinct(es[8].1, es[9].1, es[10].1);
    SetAllDistinct(map[], es, 8);
    SetAllDistinct(map[], es, 9);
    SetAllDistinct(map[], es, 10);
  }

  /** Audio is fetched exactly as video is. */
  lemma AudioLikeVideo()
    ensures Fingerprint(Audio) == Fingerprint(Video)
  {
  }
}
