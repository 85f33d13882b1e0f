/**
 * The web-platform values the proxy handles: case-insensitive `Headers`,
 * parsed URLs, response bodies and responses. A `Headers` object stores
 * every name lower-cased; `set`, `get` and `delete` lower-case the name they
 * are given, so the keys of a header map built through them are lower-case.
 */
module Http {
  import opened Wrappers
  import opened Strings

  /** The contents of a `Headers` object: lower-cased names to values. */
  type HeaderMap = map<string, string>

  /** Every name is lower-case, as in any `Headers` object. */
  predicate Canonical(m: HeaderMap) {
    forall k :: k in m ==> IsLower(k)
  }

  /** The headers of a response the platform hands over, whose names are lower-case. */
  type CanonicalHeaderMap = m: HeaderMap | Canonical(m)

  /** A plain object's own entries, in insertion order (`Object.entries`). */
  type Entries = seq<(string, string)>

  /** The value stored under the (already lower-case) key `k`. */
  function Entry(m: HeaderMap, k: string): Option<string> {
    if k in m then Some(m[k]) else None
  }

  /** `headers.get(name)`: case-insensitive lookup. */
  function Lookup(m: HeaderMap, name: string): Option<string> {
    Entry(m, Lower(name))
  }

  /** The header names, lower-cased, that a list of entries mentions. */
  function Names(es: Entries): set<string> {
    set i | 0 <= i < |es| :: Lower(es[i].0)
  }

  /** The value of the last entry whose name lower-cases to `k`. */
  function LastValue(es: Entries, k: string): Option<string> {
    if es == [] then None
    else if Lower(es[|es| - 1].0) == k then Some(es[|es| - 1].1)
    else LastValue(es[..|es| - 1], k)
  }

  /** Every entry of `es` set into `m` in turn, as a loop of `headers.set` calls does. */
  function SetAll(m: HeaderMap, es: Entries): HeaderMap
  {
    if es == [] then m
    else
      SetAll(m, es[..|es| - 1])[Lower(es[|es| - 1].0) := es[|es| - 1].1]
  }

  /** One more step of the loop that `SetAll` describes. */
  lemma SetAllStep(m: HeaderMap, es: Entries, i: nat)
    requires i < |es|
    ensures SetAll(m, es[..i + 1]) == SetAll(m, es[..i])[Lower(es[i].0) := es[i].1]
  {
    assert es[..i + 1][..i] == es[..i];
  }

  /**
   * After setting a list of entries, a key holds the value of the last entry
   * that names it, and keeps its old value (or its absence) when none does.
   */
  lemma {:induction false} SetAllEntry(m: HeaderMap, es: Entries, k: string)
    ensures Entry(SetAll(m, es), k) == if LastValue(es, k).Some? then LastValue(es, k) else Entry(m, k)
  {
    if es != [] {
      SetAllEntry(m, es[..|es| - 1], k);
    }
  }

  /** The names of a list are those of all but its last entry, plus the last entry's. */
  lemma NamesOfInit(es: Entries)
    requires es != []
    ensures Names(es) == Names(es[..|es| - 1]) + {Lower(es[|es| - 1].0)}
  {
    var init := es[..|es| - 1];
    forall x | x in Names(es) ensures x in Names(init) + {Lower(es[|es| - 1].0)} {
      var i :| 0 <= i < |es| && Lower(es[i].0) == x;
      if i < |es| - 1 {
        assert init[i] == es[i];
      }
    }
    forall x | x in Names(init) ensures x in Names(es) {
      var i :| 0 <= i < |init| && Lower(init[i].0) == x;
      assert es[i] == init[i];
    }
  }

  /** Some entry names `k` exactly when a last value for `k` exists. */
  lemma {:induction false} LastValueNames(es: Entries, k: string)
    ensures LastValue(es, k).Some? <==> k in Names(es)
  {
    if es != [] {
      var init := es[..|es| - 1];
      LastValueNames(init, k);
      NamesOfInit(es);
    }
  }

  /** An entry that no later entry overrides supplies the last value for its name. */
  lemma {:induction false} LastValueAt(es: Entries, i: nat)
    requires i < |es|
    requires forall j :: i < j < |es| ==> Lower(es[j].0) != Lower(es[i].0)
    ensures LastValue(es, Lower(es[i].0)) == Some(es[i].1)
  {
    if i < |es| - 1 {
      var init := es[..|es| - 1];
      assert init[i] == es[i];
      LastValueAt(init, i);
    }
  }

  /** Every name the entries mention ends up holding the last value given for it. */
  lemma SetAllNamed(m: HeaderMap, es: Entries, k: string)
    requires k in Names(es)
    ensures Entry(SetAll(m, es), k) == LastValue(es, k)
  {
    SetAllEntry(m, es, k);
    LastValueNames(es, k);
  }

  /** Every key the entries do not mention keeps its value, or stays absent. */
  lemma SetAllOthers(m: HeaderMap, es: Entries, k: string)
    requires k !in Names(es)
    ensures Entry(SetAll(m, es), k) == Entry(m, k)
  {
    SetAllEntry(m, es, k);
    LastValueNames(es, k);
  }

  /** Setting two lists in a row is setting their concatenation. */
  lemma {:induction false} SetAllConcat(m: HeaderMap, a: Entries, b: Entries)
    ensures SetAll(m, a + b) == SetAll(SetAll(m, a), b)
  {
    if b != [] {
      var b' := b[..|b| - 1];
      assert (a + b)[..|a + b| - 1] == a + b';
      SetAllConcat(m, a, b');
    } else {
      assert a + b == a;
    }
  }

  /** Setting entries adds exactly their lower-cased names to the keys. */
  lemma {:induction false} SetAllKeys(m: HeaderMap, es: Entries)
    ensures SetAll(m, es).Keys == m.Keys + Names(es)
  {
    if es != [] {
      var init := es[..|es| - 1];
      SetAllKeys(m, init);
      NamesOfInit(es);
    }
  }

  /** No two entries name the same header, case aside. */
  predicate DistinctNames(es: Entries) {
    forall i, j :: 0 <= i < j < |es| ==> Lower(es[i].0) != Lower(es[j].0)
  }

  /** When no two entries name the same header, every entry's value survives `SetAll`. */
  lemma SetAllDistinct(m: HeaderMap, es: Entries, i: nat)
    requires DistinctNames(es) && i < |es|
    ensures Entry(SetAll(m, es), Lower(es[i].0)) == Some(es[i].1)
  {
    LastValueAt(es, i);
    SetAllEntry(m, es, Lower(es[i].0));
  }

  /** Distinct names are as many as the entries. */
  lemma {:induction false} DistinctNamesCount(es: Entries)
    requires DistinctNames(es)
    ensures |Names(es)| == |es|
  {
    if es != [] {
      var init := es[..|es| - 1];
      assert DistinctNames(init) by {
        forall i, j | 0 <= i < j < |init| ensures Lower(init[i].0) != Lower(init[j].0) {
          assert init[i] == es[i] && init[j] == es[j];
        }
      }
      DistinctNamesCount(init);
      NamesOfInit(es);
      assert Lower(es[|es| - 1].0) !in Names(init) by {
        forall i | 0 <= i < |init| ensures Lower(init[i].0) != Lower(es[|es| - 1].0) {
          assert init[i] == es[i];
        }
      }
    }
  }

  /** Setting entries with distinct names into an empty map gives one key per entry. */
  lemma SetAllDistinctCount(es: Entries)
    requires DistinctNames(es)
    ensures SetAll(map[], es).Keys == Names(es)
    ensures |SetAll(map[], es)| == |es|
  {
    SetAllKeys(map[], es);
    DistinctNamesCount(es);
    assert |SetAll(map[], es)| == |SetAll(map[], es).Keys|;
  }

  // ---------------------------------------------------------------- single updates

  /** The map after `headers.set(name, value)`. */
  function With(m: HeaderMap, name: string, value: string): HeaderMap {
    m[Lower(name) := value]
  }

  /** The map after `headers.delete(name)`. */
  function Without(m: HeaderMap, name: string): HeaderMap {
    m - {Lower(name)}
  }

  /** The last entry for `k` in `a + b` is in `b` when `b` has one, and in `a` otherwise. */
  lemma {:induction false} LastValueConcat(a: Entries, b: Entries, k: string)
    ensures LastValue(a + b, k) == if LastValue(b, k).Some? then LastValue(b, k) else LastValue(a, k)
  {
    if b != [] {
      assert (a + b)[..|a + b| - 1] == a + b[..|b| - 1];
      LastValueConcat(a, b[..|b| - 1], k);
    } else {
      assert a + b == a;
    }
  }

  // ---------------------------------------------------------------- valid names and values

  /** A character of an HTTP token (section 5.6.2 of RFC 9110). */
  predicate IsTokenChar(c: char) {
    ('a' <= c <= 'z') || ('A' <= c <= 'Z') || ('0' <= c <= '9') || c in "!#$%&'*+-.^_`|~"
  }

  /** A header name `Headers` accepts: a non-empty token. */
  predicate ValidHeaderName(name: string) {
    name != [] && forall i :: 0 <= i < |name| ==> IsTokenChar(name[i])
  }

  /** The white space the Fetch standard strips from both ends of a header value. */
  predicate IsHttpSpace(c: char) {
    c == '\t' || c == '\n' || c == '\r' || c == ' '
  }

  predicate AllHttpSpace(s: string) {
    forall i :: 0 <= i < |s| ==> IsHttpSpace(s[i])
  }

  /**
   * A header value `Headers` accepts: a byte string whose value, once the
   * white space at its ends is stripped, holds no NUL, CR or LF. So a CR or
   * LF is allowed only in the white space at either end.
   */
  predicate ValidHeaderValue(v: string) {
    forall i :: 0 <= i < |v| ==>
      v[i] <= '\U{FF}' && v[i] != '\0'
      && ((v[i] == '\n' || v[i] == '\r') ==> AllHttpSpace(v[..i + 1]) || AllHttpSpace(v[i..]))
  }

  /** An entry `headers.set` accepts. */
  predicate ValidEntry(e: (string, string)) {
    ValidHeaderName(e.0) && ValidHeaderValue(e.1)
  }

  /** Every entry is accepted, so setting them all in turn throws nowhere. */
  predicate ValidEntries(es: Entries) {
    forall i :: 0 <= i < |es| ==> ValidEntry(es[i])
  }

  // ---------------------------------------------------------------- Headers

  /** A `Headers` object that is updated in place. */
  class Headers {
    var m: HeaderMap

    /** `new Headers()`. */
    constructor ()
      ensures m == map[]
    {
      m := map[];
    }

    /** `new Headers(other)` for another `Headers`. */
    constructor Copy(init: HeaderMap)
      ensures m == init
    {
      m := init;
    }

    /**
     * `new Headers(record)` for a plain object. The keys of an object differ,
     * and the proxy's records differ even case aside; with names equal case
     * aside the platform would join the values, which is not modelled.
     */
    constructor Of(init: Entries)
      requires DistinctNames(init)
      ensures m == SetAll(map[], init)
    {
      m := SetAll(map[], init);
    }

    /** `headers.get(name)`. */
    function Get(name: string): Option<string>
      reads this
    {
      Lookup(m, name)
    }

    /** `headers.has(name)`. */
    predicate Has(name: string)
      reads this
    {
      Lower(name) in m
    }

    /** `headers.set(name, value)`: replaces whatever the name held. */
    method Set(name: string, value: string)
      modifies this
      ensures m == old(m)[Lower(name) := value]
    {
      m := m[Lower(name) := value];
    }

    /**
     * `headers.set(name, value)` for a name and value that come from the
     * caller: when the name is not an HTTP token or the value is not a valid
     * header value the platform throws a `TypeError` and nothing is set;
     * `ok` says which happened.
     */
    method TrySet(name: string, value: string) returns (ok: bool)
      modifies this
      ensures ok <==> ValidHeaderName(name) && ValidHeaderValue(value)
      ensures m == if ok then old(m)[Lower(name) := value] else old(m)
    {
      ok := ValidHeaderName(name) && ValidHeaderValue(value);
      if ok {
        m := m[Lower(name) := value];
      }
    }

    /** `headers.delete(name)`. */
    method Delete(name: string)
      modifies this
      ensures m == old(m) - {Lower(name)}
    {
      m := m - {Lower(name)};
    }
  }

  // ---------------------------------------------------------------- URLs

  /** The parts of a parsed `URL` that the proxy reads. */
  datatype Url = Url(hostname: string, pathname: string)

  /**
   * The WHATWG URL parser, abstracted: `parse(s)` is `new URL(s)` and
   * `resolve(s)` is `new URL(s, 'http://dummy.com')`; `None` stands for a
   * thrown `TypeError`.
   */
  datatype UrlSyntax = UrlSyntax(parse: string -> Option<Url>, resolve: string -> Option<Url>)

  /** The proxy's own request URL: origin, path and decoded query parameters in order. */
  datatype RequestUrl = RequestUrl(origin: string, pathname: string, query: seq<(string, string)>)

  /**
   * The value of the first pair whose key is `key`: what the search
   * parameters of a URL give for a name, and what a plain object given by its
   * entries holds under a key.
   */
  function FirstValue(pairs: seq<(string, string)>, key: string): (r: Option<string>)
    ensures r.Some? ==> exists i :: (0 <= i < |pairs| && pairs[i] == (key, r.value)
                                     && forall j :: 0 <= j < i ==> pairs[j].0 != key)
    ensures r.None? ==> forall i :: 0 <= i < |pairs| ==> pairs[i].0 != key
  {
    if pairs == [] then None
    else if pairs[0].0 == key then Some(pairs[0].1)
    else
      var r := FirstValue(pairs[1..], key);
      assert forall i :: 1 <= i < |pairs| ==> pairs[i] == pairs[1..][i - 1];
      if r.Some? then
        var i :| 0 <= i < |pairs[1..]| && pairs[1..][i] == (key, r.value)
          && forall j :: 0 <= j < i ==> pairs[1..][j].0 != key;
        assert pairs[i + 1] == (key, r.value) && forall j :: 0 <= j < i + 1 ==> pairs[j].0 != key;
        r
      else r
  }

  // ---------------------------------------------------------------- responses

  /** A response body; the upstream's bytes are passed through unread. */
  datatype Body = NoBody | JsonError(error: string) | Bytes(data: seq<bv8>)

  datatype Response = Response(status: int, headers: HeaderMap, body: Body)
}
