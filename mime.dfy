/**
 * The content classifier: the MIME table, the per-kind extension sets,
 * extension inference from a content type or a URL path, the resource kind,
 * and the default cache lifetimes per kind (src/utils/mime.js).
 */
module Mime {
  import opened Wrappers
  import opened Strings
  import opened Http

  const OCTET_STREAM := "application/octet-stream"

  /** `MIME_TYPES` as its entries, in declaration order. */
  const MIME_TYPES: seq<(string, string)> := [
    ("video/mp4", "mp4"), ("video/webm", "webm"), ("video/quicktime", "mov"),
    ("video/x-flv", "flv"), ("video/x-msvideo", "avi"), ("video/ogg", "ogv"),
    ("application/x-mpegurl", "m3u8"), ("video/mp2t", "ts"),
    ("image/jpeg", "jpg"), ("image/png", "png"), ("image/gif", "gif"),
    ("image/webp", "webp"), ("image/svg+xml", "svg"), ("image/avif", "avif"), ("image/x-icon", "ico"),
    ("audio/mpeg", "mp3"), ("audio/ogg", "ogg"), ("audio/wav", "wav"), ("audio/aac", "aac"),
    (OCTET_STREAM, "bin")
  ]

  const IMAGE_EXTS: set<string> := {"jpg", "jpeg", "png", "gif", "webp", "svg", "ico", "avif"}
  const VIDEO_EXTS: set<string> := {"mp4", "webm", "mov", "flv", "avi", "m3u8", "ts", "ogv"}
  const AUDIO_EXTS: set<string> := {"mp3", "ogg", "wav", "aac"}

  // ---------------------------------------------------------------- the table

  /** The inverse lookup of a table: the key of the first entry whose value is `value`. */
  function KeyOf(table: seq<(string, string)>, value: string): (r: Option<string>)
    ensures r.Some? ==> exists i :: (0 <= i < |table| && table[i] == (r.value, value)
                                     && forall j :: 0 <= j < i ==> table[j].1 != value)
    ensures r.None? ==> forall i :: 0 <= i < |table| ==> table[i].1 != value
  {
    if table == [] then None
    else if table[0].1 == value then Some(table[0].0)
    else
      var r := KeyOf(table[1..], value);
      assert forall i :: 1 <= i < |table| ==> table[i] == table[1..][i - 1];
      if r.Some? then
        var i :| 0 <= i < |table[1..]| && table[1..][i] == (r.value, value)
          && forall j :: 0 <= j < i ==> table[1..][j].1 != value;
        assert table[i + 1] == (r.value, value) && forall j :: 0 <= j < i + 1 ==> table[j].1 != value;
        r
      else r
  }

  /** No two entries share a key, and no two share a value. */
  predicate OneToOne(table: seq<(string, string)>) {
    forall i, j :: 0 <= i < j < |table| ==> table[i].0 != table[j].0 && table[i].1 != table[j].1
  }

  /** In a one-to-one table, looking a key up and looking its value back up are inverse. */
  lemma {:induction false} KeyOfFirstValue(table: seq<(string, string)>, key: string, value: string)
    requires OneToOne(table)
    ensures FirstValue(table, key) == Some(value) <==> KeyOf(table, value) == Some(key)
  {
    if table != [] && table[0].0 != key && table[0].1 != value {
      var rest := table[1..];
      assert OneToOne(rest) by {
        forall i, j | 0 <= i < j < |rest| ensures rest[i].0 != rest[j].0 && rest[i].1 != rest[j].1 {
          assert rest[i] == table[i + 1] && rest[j] == table[j + 1];
        }
      }
      KeyOfFirstValue(rest, key, value);
    }
  }

  /** No two entries of the shipped MIME table share a type. */
  lemma MimeTypesDistinct()
    ensures forall i, j :: 0 <= i < j < |MIME_TYPES| ==> MIME_TYPES[i].0 != MIME_TYPES[j].0
  {
  }

  /** No two entries of the shipped MIME table share an extension. */
  lemma MimeExtensionsDistinct()
    ensures forall i, j :: 0 <= i < j < |MIME_TYPES| ==> MIME_TYPES[i].1 != MIME_TYPES[j].1
  {
  }

  /** The shipped MIME table maps distinct types to distinct extensions. */
  lemma MimeTableOneToOne()
    ensures OneToOne(MIME_TYPES)
  {
    MimeTypesDistinct();
    MimeExtensionsDistinct();
  }

  /** `MIME_TYPES[contentType]`. */
  function MimeExtension(contentType: string): Option<string> {
    FirstValue(MIME_TYPES, contentType)
  }

  /** The first `MIME_TYPES` key whose extension is `ext`. */
  function MimeTypeFor(ext: string): Option<string> {
    KeyOf(MIME_TYPES, ext)
  }

  /** An extension as `getExtension` hands them out: lower-case, 2 to 5 characters. */
  predicate WellShapedExtension(e: string) {
    2 <= |e| <= 5 && IsLower(e)
  }

  /** Every extension in the table is well shaped. */
  lemma TableExtensionsShaped()
    ensures forall i :: 0 <= i < |MIME_TYPES| ==> WellShapedExtension(MIME_TYPES[i].1)
  {
  }

  /** So every extension the table gives is well shaped. */
  lemma MimeExtensionShape(contentType: string)
    ensures MimeExtension(contentType).Some? ==> WellShapedExtension(MimeExtension(contentType).value)
  {
    TableExtensionsShaped();
  }

  /** The inverse lookup `MimeTypeFor` undoes `MimeExtension`, and only for table entries. */
  lemma MimeTypeRoundTrip(contentType: string, ext: string)
    ensures MimeExtension(contentType) == Some(ext) <==> MimeTypeFor(ext) == Some(contentType)
  {
    MimeTableOneToOne();
    KeyOfFirstValue(MIME_TYPES, contentType, ext);
  }

  // ---------------------------------------------------------------- getExtension

  /**
   * The extension the path itself suggests: the text after its last `.`,
   * cut at the first `?`, lower-cased.
   */
  function PathExtension(pathname: string): (r: string)
    ensures IsLower(r) && |r| <= |pathname|
    ensures '.' !in r && '?' !in r
  {
    var tail := BeforeFirst(AfterLast(pathname, '.'), '?');
    var r := Lower(tail);
    assert forall i :: 0 <= i < |r| ==> (r[i] == '.' ==> tail[i] == '.') && (r[i] == '?' ==> tail[i] == '?');
    r
  }

  /**
   * `getExtension(contentType, urlPath)`: the table's extension for a known
   * content type other than octet-stream; otherwise the path's extension when
   * it is 2 to 5 characters long, whatever characters it holds; otherwise
   * `bin`, including when the path does not parse.
   */
  function GetExtension(urls: UrlSyntax, contentType: string, urlPath: string): (r: string)
    ensures WellShapedExtension(r)
    ensures contentType != OCTET_STREAM && MimeExtension(contentType).Some? ==> r == MimeExtension(contentType).value
    ensures contentType == OCTET_STREAM || MimeExtension(contentType).None? ==>
      if urls.resolve(urlPath).Some? && 2 <= |PathExtension(urls.resolve(urlPath).value.pathname)| <= 5
      then r == PathExtension(urls.resolve(urlPath).value.pathname)
      else r == "bin"
  {
    MimeExtensionShape(contentType);
    if contentType != "" && MimeExtension(contentType).Some? && contentType != OCTET_STREAM then
      MimeExtension(contentType).value
    else
      match urls.resolve(urlPath)
      case Some(u) =>
        var ext := PathExtension(u.pathname);
        if ext != "" && 2 <= |ext| <= 5 then ext else "bin"
      case None => "bin"
  }

  /** Without a usable content type, a path that ends in `.` and a short dot-free tail gives that tail, lower-cased. */
  lemma ExtensionFromDottedPath(urls: UrlSyntax, contentType: string, urlPath: string, stem: string, tail: string)
    requires contentType == OCTET_STREAM || MimeExtension(contentType).None?
    requires urls.resolve(urlPath).Some? && urls.resolve(urlPath).value.pathname == stem + "." + tail
    requires '.' !in tail && '?' !in tail && 2 <= |tail| <= 5
    ensures GetExtension(urls, contentType, urlPath) == Lower(tail)
  {
    PathExtensionOfDotted(stem, tail);
  }

  /** A path that ends in `.` and a dot-free, `?`-free tail has that tail, lower-cased, as its extension. */
  lemma PathExtensionOfDotted(stem: string, tail: string)
    requires '.' !in tail && '?' !in tail
    ensures PathExtension(stem + "." + tail) == Lower(tail)
  {
    AfterLastOfTail(stem, '.', tail);
    assert BeforeFirst(tail, '?') == tail;
  }

  /** `video/mp4` gives `mp4`, whatever the path. */
  lemma ExtensionOfMp4(urls: UrlSyntax, urlPath: string)
    ensures GetExtension(urls, "video/mp4", urlPath) == "mp4"
  {
  }

  /** An octet-stream content type with a path ending in `.jpg` gives `jpg`. */
  lemma ExtensionOfJpgPath(urls: UrlSyntax, urlPath: string, stem: string)
    requires urls.resolve(urlPath).Some? && urls.resolve(urlPath).value.pathname == stem + ".jpg"
    ensures GetExtension(urls, OCTET_STREAM, urlPath) == "jpg"
  {
    assert stem + ".jpg" == stem + "." + "jpg";
    ExtensionFromDottedPath(urls, OCTET_STREAM, urlPath, stem, "jpg");
  }

  // ---------------------------------------------------------------- getResourceType

  datatype ResourceKind = Image | Video | Audio | Other

  predicate ImageSignal(contentType: string, ext: string) {
    StartsWith(Lower(contentType), "image/") || Lower(ext) in IMAGE_EXTS
  }

  predicate VideoSignal(contentType: string, ext: string) {
    StartsWith(Lower(contentType), "video/") || Lower(ext) in VIDEO_EXTS
  }

  predicate AudioSignal(contentType: string, ext: string) {
    StartsWith(Lower(contentType), "audio/") || Lower(ext) in AUDIO_EXTS
  }

  /**
   * `getResourceType(contentType, ext)`: image, video and audio are tested in
   * that order, each by content-type prefix or extension set; the first that
   * holds decides, and `Other` means none holds.
   */
  function GetResourceType(contentType: string, ext: string): (r: ResourceKind)
    ensures r == Image <==> ImageSignal(contentType, ext)
    ensures r == Video <==> !ImageSignal(contentType, ext) && VideoSignal(contentType, ext)
    ensures r == Audio <==> !ImageSignal(contentType, ext) && !VideoSignal(contentType, ext) && AudioSignal(contentType, ext)
    ensures r == Other <==> !ImageSignal(contentType, ext) && !VideoSignal(contentType, ext) && !AudioSignal(contentType, ext)
  {
    var t := Lower(contentType);
    var e := Lower(ext);
    if StartsWith(t, "image/") || e in IMAGE_EXTS then Image
    else if StartsWith(t, "video/") || e in VIDEO_EXTS then Video
    else if StartsWith(t, "audio/") || e in AUDIO_EXTS then Audio
    else Other
  }

  /** An image extension wins over any content type, a `video/` one included. */
  lemma ImageExtensionWins(contentType: string, ext: string)
    requires Lower(ext) in IMAGE_EXTS
    ensures GetResourceType(contentType, ext) == Image
  {
  }

  /** The three extension sets are pairwise disjoint. */
  lemma ExtensionSetsDisjoint()
    ensures IMAGE_EXTS !! VIDEO_EXTS && IMAGE_EXTS !! AUDIO_EXTS && VIDEO_EXTS !! AUDIO_EXTS
  {
  }

  predicate InExactlyOneSet(e: string) {
    || (e in IMAGE_EXTS && e !in VIDEO_EXTS && e !in AUDIO_EXTS)
    || (e !in IMAGE_EXTS && e in VIDEO_EXTS && e !in AUDIO_EXTS)
    || (e !in IMAGE_EXTS && e !in VIDEO_EXTS && e in AUDIO_EXTS)
  }

  /** Every extension of the table except `bin` lies in exactly one of the three sets. */
  lemma TableExtensionsClassified(i: nat)
    requires i < |MIME_TYPES| && MIME_TYPES[i].1 != "bin"
    ensures InExactlyOneSet(MIME_TYPES[i].1)
  {
  }

  // ---------------------------------------------------------------- getDefaultTtls

  /** Browser and CDN cache lifetimes, in seconds. */
  datatype Ttls = Ttls(browserTtl: nat, cdnTtl: nat)

  const IMAGE_TTLS := Ttls(86400, 2592000)
  const OTHER_TTLS := Ttls(3600, 86400)

  /**
   * `getDefaultTtls(contentType, ext)`: a day in the browser and thirty at the
   * CDN for images, an hour and a day for every other kind.
   */
  function GetDefaultTtls(contentType: string, ext: string): (r: Ttls)
    ensures r.browserTtl <= r.cdnTtl && r.browserTtl <= 86400
    ensures r == (if GetResourceType(contentType, ext) == Image then IMAGE_TTLS else OTHER_TTLS)
  {
    var kind := GetResourceType(contentType, ext);
    if kind == Image then IMAGE_TTLS else OTHER_TTLS
  }
}
