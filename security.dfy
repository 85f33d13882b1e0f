/**
 * The security gate: allow-list checks on the target host and on the
 * caller's `Referer` (src/utils/security.js). Unless the list holds the
 * wildcard, a target that does not parse is refused; a missing referrer is let through.
 */
module Security {
  import opened Wrappers
  import opened Strings
  import opened Http

  const ALLOWED_HOSTS: seq<string> := ["*"]
  const ALLOWED_REFERRERS: seq<string> := ["ucks.cn", "www.ucks.cn", "localhost", "127.0.0.1"]

  /**
   * The hostname is the domain itself or one of its subdomains: it equals
   * `d`, or it ends with `d` and the character before that is a dot.
   */
  function DomainMatches(hostname: string, d: string): (r: bool)
    ensures r <==> (hostname == d
      || (|d| < |hostname| && hostname[|hostname| - |d| - 1] == '.' && hostname[|hostname| - |d|..] == d))
  {
    var k := |hostname| - |d| - 1;
    assert |d| < |hostname| ==> hostname[k..] == [hostname[k]] + hostname[k + 1..];
    hostname == d || EndsWith(hostname, "." + d)
  }

  /** Some domain of the list matches the hostname. */
  function AnyDomainMatches(hostname: string, domains: seq<string>): (r: bool)
    ensures r <==> exists i :: 0 <= i < |domains| && DomainMatches(hostname, domains[i])
  {
    if domains == [] then false
    else if DomainMatches(hostname, domains[0]) then true
    else
      var r := AnyDomainMatches(hostname, domains[1..]);
      assert forall i :: 1 <= i < |domains| ==> domains[i] == domains[1..][i - 1];
      r
  }

  /**
   * `isHostAllowed(urlStr, allowList)`: every string when the list holds
   * `*`; otherwise a string that parses, whose hostname is an entry or a
   * subdomain of one.
   */
  function IsHostAllowed(urls: UrlSyntax, urlStr: string, allowList: seq<string>): (r: bool)
    ensures "*" in allowList ==> r
    ensures "*" !in allowList && urls.parse(urlStr).None? ==> !r
    ensures "*" !in allowList && urls.parse(urlStr).Some? ==>
      (r <==> exists i :: 0 <= i < |allowList| && DomainMatches(urls.parse(urlStr).value.hostname, allowList[i]))
  {
    if "*" in allowList then true
    else match urls.parse(urlStr)
      case Some(u) => AnyDomainMatches(u.hostname, allowList)
      case None => false
  }

  /**
   * `isReferrerAllowed(refererHeader, allowList)`: an absent or empty
   * `Referer` passes; any other is checked like a target URL.
   */
  function IsReferrerAllowed(urls: UrlSyntax, referer: Option<string>, allowList: seq<string>): (r: bool)
    ensures referer.None? || referer == Some("") ==> r
    ensures referer.Some? && referer.value != "" ==> r == IsHostAllowed(urls, referer.value, allowList)
  {
    match referer
    case None => true
    case Some(v) => v == "" || IsHostAllowed(urls, v, allowList)
  }

  /** Adding entries to an allow-list never turns an allowed URL into a refused one. */
  lemma AllowListMonotone(urls: UrlSyntax, urlStr: string, small: seq<string>, large: seq<string>)
    requires forall d :: d in small ==> d in large
    requires IsHostAllowed(urls, urlStr, small)
    ensures IsHostAllowed(urls, urlStr, large)
  {
    if "*" !in large {
      var h := urls.parse(urlStr).value.hostname;
      var i :| 0 <= i < |small| && DomainMatches(h, small[i]);
      assert small[i] in large;
      var j :| 0 <= j < |large| && large[j] == small[i];
    }
  }

  /** A subdomain matches its parent domain; a name that merely ends in the same letters does not. */
  lemma SubdomainsOnly()
    ensures DomainMatches("a.ucks.cn", "ucks.cn")
    ensures !DomainMatches("evilucks.cn", "ucks.cn")
  {
    assert "a.ucks.cn"[|"a.ucks.cn"| - |".ucks.cn"|..] == ".ucks.cn";
    assert "evilucks.cn"[|"evilucks.cn"| - |".ucks.cn"|..][0] == 'l';
  }

  /** The shipped host list is the wildcard, so it admits every target, even one that does not parse. */
  lemma ShippedHostsAdmitEverything(urls: UrlSyntax, urlStr: string)
    ensures IsHostAllowed(urls, urlStr, ALLOWED_HOSTS)
  {
  }

  /** With the shipped referrer list, a page on a subdomain of ucks.cn may call the proxy. */
  lemma ShippedReferrersAdmitSubdomains(urls: UrlSyntax, referer: string, u: Url)
    requires referer != "" && urls.parse(referer) == Some(u)
    requires EndsWith(u.hostname, ".ucks.cn")
    ensures IsReferrerAllowed(urls, Some(referer), ALLOWED_REFERRERS)
  {
    assert DomainMatches(u.hostname, ALLOWED_REFERRERS[0]);
  }
}
