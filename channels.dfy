/**
 * The channel rule engine (src/core/channel-rules.js) over the shipped rule
 * table (src/config/channels.js): the first rule whose domains match the
 * target's hostname supplies header overrides, which are written into the
 * upstream `Headers` in place.
 */
module Channels {
  import opened Wrappers
  import opened Strings
  import opened Http
  import opened Security

  /** A named set of header overrides for the hosts under some domains. */
  datatype Channel = Channel(name: string, domains: seq<string>, headers: Entries)

  const CHANNEL_RULES: seq<Channel> := [
    Channel(
      "xinpianchang",
      ["xpccdn.com", "xinpianchang.com"],
      [("Referer", "https://www.xinpianchang.com/"),
       ("Origin", "https://www.xinpianchang.com"),
       ("Range", "bytes=0-")])
  ]

  /** The fallback when no rule matches; it has no domains and sets no header. */
  const DEFAULT_CHANNEL := Channel("default", [], [])

  predicate RuleMatches(rule: Channel, hostname: string) {
    AnyDomainMatches(hostname, rule.domains)
  }

  /** The first rule, in table order, that matches `hostname`. */
  function FirstMatchingRule(rules: seq<Channel>, hostname: string): (r: Option<Channel>)
    ensures r.Some? ==> exists i :: (0 <= i < |rules| && rules[i] == r.value && RuleMatches(rules[i], hostname)
                                     && forall j :: 0 <= j < i ==> !RuleMatches(rules[j], hostname))
    ensures r.None? ==> forall i :: 0 <= i < |rules| ==> !RuleMatches(rules[i], hostname)
  {
    if rules == [] then None
    else if RuleMatches(rules[0], hostname) then Some(rules[0])
    else
      var r := FirstMatchingRule(rules[1..], hostname);
      assert forall i :: 1 <= i < |rules| ==> rules[i] == rules[1..][i - 1];
      if r.Some? then
        var i :| 0 <= i < |rules[1..]| && rules[1..][i] == r.value && RuleMatches(rules[1..][i], hostname)
          && forall j :: 0 <= j < i ==> !RuleMatches(rules[1..][j], hostname);
        assert rules[i + 1] == r.value && forall j :: 0 <= j < i + 1 ==> !RuleMatches(rules[j], hostname);
        r
      else r
  }

  /**
   * The channel for a target over the table `rules`: the first matching
   * rule, or the default channel when the URL does not parse or nothing
   * matches.
   */
  function ChannelFor(urls: UrlSyntax, rules: seq<Channel>, targetUrl: string): (r: Channel)
    ensures r == DEFAULT_CHANNEL || r in rules
    ensures urls.parse(targetUrl).None? ==> r == DEFAULT_CHANNEL
  {
    match urls.parse(targetUrl)
    case None => DEFAULT_CHANNEL
    case Some(u) =>
      match FirstMatchingRule(rules, u.hostname)
      case Some(rule) => rule
      case None => DEFAULT_CHANNEL
  }

  /** The rule at index `i` is chosen when it is the first to match the target's hostname. */
  lemma ChannelForFirstMatch(urls: UrlSyntax, rules: seq<Channel>, targetUrl: string, i: nat)
    requires urls.parse(targetUrl).Some? && i < |rules|
    requires RuleMatches(rules[i], urls.parse(targetUrl).value.hostname)
    requires forall j :: 0 <= j < i ==> !RuleMatches(rules[j], urls.parse(targetUrl).value.hostname)
    ensures ChannelFor(urls, rules, targetUrl) == rules[i]
  {
    var h := urls.parse(targetUrl).value.hostname;
    var r := FirstMatchingRule(rules, h);
    var k :| 0 <= k < |rules| && rules[k] == r.value && RuleMatches(rules[k], h)
      && forall j :: 0 <= j < k ==> !RuleMatches(rules[j], h);
    assert k == i;
  }

  /** When no rule matches the target's hostname, the default channel is chosen. */
  lemma ChannelForNoMatch(urls: UrlSyntax, rules: seq<Channel>, targetUrl: string)
    requires urls.parse(targetUrl).Some?
    requires forall i :: 0 <= i < |rules| ==> !RuleMatches(rules[i], urls.parse(targetUrl).value.hostname)
    ensures ChannelFor(urls, rules, targetUrl) == DEFAULT_CHANNEL
  {
  }

  /**
   * `matchChannel(targetUrl)`: walks the rules in order and returns the
   * first whose domains match the target's hostname.
   */
  method MatchChannel(urls: UrlSyntax, rules: seq<Channel>, targetUrl: string) returns (channel: Channel)
    ensures channel == ChannelFor(urls, rules, targetUrl)
  {
    var parsed := urls.parse(targetUrl);
    if parsed.None? {
      return DEFAULT_CHANNEL;
    }
    var hostname := parsed.value.hostname;
    var i := 0;
    while i < |rules|
      invariant 0 <= i <= |rules|
      invariant forall j :: 0 <= j < i ==> !RuleMatches(rules[j], hostname)
    {
      if AnyDomainMatches(hostname, rules[i].domains) {
        ChannelForFirstMatch(urls, rules, targetUrl, i);
        return rules[i];
      }
      i := i + 1;
    }
    return DEFAULT_CHANNEL;
  }

  /**
   * `applyChannelHeaders(upstreamHeaders, targetUrl)`: writes every header of
   * the matched channel into `h`, in the channel's order, and returns the channel.
   */
  method ApplyChannelHeaders(h: Headers, urls: UrlSyntax, rules: seq<Channel>, targetUrl: string) returns (channel: Channel)
    modifies h
    ensures channel == ChannelFor(urls, rules, targetUrl)
    ensures h.m == SetAll(old(h.m), channel.headers)
  {
    channel := MatchChannel(urls, rules, targetUrl);
    var i := 0;
    while i < |channel.headers|
      invariant 0 <= i <= |channel.headers|
      invariant h.m == SetAll(old(h.m), channel.headers[..i])
    {
      SetAllStep(old(h.m), channel.headers, i);
      h.Set(channel.headers[i].0, channel.headers[i].1);
      i := i + 1;
    }
    assert channel.headers[..i] == channel.headers;
  }

  /**
   * After `applyChannelHeaders`, each header the channel names holds the
   * channel's value for it, and every other header is as it was.
   */
  lemma AppliedChannelHeaders(m: HeaderMap, channel: Channel, k: string)
    ensures k in Names(channel.headers) ==> Entry(SetAll(m, channel.headers), k) == LastValue(channel.headers, k)
    ensures k !in Names(channel.headers) ==> Entry(SetAll(m, channel.headers), k) == Entry(m, k)
  {
    if k in Names(channel.headers) {
      SetAllNamed(m, channel.headers, k);
    } else {
      SetAllOthers(m, channel.headers, k);
    }
  }

  /** The default channel leaves the headers untouched. */
  lemma DefaultChannelKeepsHeaders(m: HeaderMap)
    ensures SetAll(m, DEFAULT_CHANNEL.headers) == m
  {
  }

  lemma LowerReferer() ensures Lower("Referer") == "referer" {}
  lemma LowerOrigin() ensures Lower("Origin") == "origin" {}
  lemma LowerRange() ensures Lower("Range") == "range" {}

  /** The xinpianchang channel sets `Referer`, `Origin` and `Range: bytes=0-`. */
  lemma XinpianchangHeaders(m: HeaderMap)
    ensures var r := SetAll(m, CHANNEL_RULES[0].headers);
      && Entry(r, "referer") == Some("https://www.xinpianchang.com/")
      && Entry(r, "origin") == Some("https://www.xinpianchang.com")
      && Entry(r, "range") == Some("bytes=0-")
  {
    var hs := CHANNEL_RULES[0].headers;
    LowerReferer();
    LowerOrigin();
    LowerRange();
    LastValueAt(hs, 0);
    LastValueAt(hs, 1);
    LastValueAt(hs, 2);
    SetAllEntry(m, hs, "referer");
    SetAllEntry(m, hs, "origin");
    SetAllEntry(m, hs, "range");
  }

  /**
   * With the shipped table, xpccdn.com and its subdomains get the
   * xinpianchang channel.
   */
  lemma XpccdnIsXinpianchang(urls: UrlSyntax, targetUrl: string)
    requires urls.parse(targetUrl).Some?
    requires var h := urls.parse(targetUrl).value.hostname; h == "xpccdn.com" || EndsWith(h, ".xpccdn.com")
    ensures ChannelFor(urls, CHANNEL_RULES, targetUrl) == CHANNEL_RULES[0]
    ensures ChannelFor(urls, CHANNEL_RULES, targetUrl).name == "xinpianchang"
  {
    var h := urls.parse(targetUrl).value.hostname;
    assert DomainMatches(h, CHANNEL_RULES[0].domains[0]);
    ChannelForFirstMatch(urls, CHANNEL_RULES, targetUrl, 0);
  }
}
