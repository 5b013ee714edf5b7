/**
 * wicked_zerg_challenger/tools/api_key_access_control.py: the IP and domain
 * allow-list check. The two lists, which the source reads from files when it
 * is constructed, are the fields of the value.
 */
module AccessControl {
  import opened Wrappers
  import opened PyText

  /** `entry.split('/')[0]`: everything before the first slash. */
  function BeforeSlash(s: string): (r: string)
    ensures r <= s && '/' !in r
    ensures '/' in s ==> |r| < |s| && s[|r|] == '/'
    ensures '/' !in s ==> r == s
  {
    if |s| == 0 || s[0] == '/' then ""
    else [s[0]] + BeforeSlash(s[1..])
  }

  /** Python truthiness of an optional string argument: given and non-empty. */
  predicate Given(s: Option<string>) {
    s.Some? && s.value != ""
  }

  /** The body of the CIDR loop for one entry: a slash entry compares its address part only. */
  predicate CidrEntryMatches(ip: string, entry: string) {
    if '/' in entry then ip == BeforeSlash(entry) else ip == entry
  }

  /** The loop over `allowed_ips` with its early `return True`. */
  predicate CidrLoop(ip: string, entries: seq<string>)
    ensures CidrLoop(ip, entries) <==> exists k :: 0 <= k < |entries| && CidrEntryMatches(ip, entries[k])
  {
    if |entries| == 0 then false
    else CidrEntryMatches(ip, entries[0]) || CidrLoop(ip, entries[1..])
  }

  /** One domain entry: `*.base` matches `base` and its sub-domains; anything else only itself. */
  predicate DomainEntryMatches(domain: string, entry: string) {
    if StartsWith(entry, "*.") then
      var base := entry[2..];
      EndsWith(domain, "." + base) || domain == base
    else domain == entry
  }

  /** The loop over `allowed_domains` with its early `return True`. */
  predicate DomainLoop(domain: string, entries: seq<string>)
    ensures DomainLoop(domain, entries) <==> exists k :: 0 <= k < |entries| && DomainEntryMatches(domain, entries[k])
  {
    if |entries| == 0 then false
    else DomainEntryMatches(domain, entries[0]) || DomainLoop(domain, entries[1..])
  }

  /** An address is let through by an entry: equal to it, or to its part before a slash. */
  predicate IpEntryAdmits(ip: string, entry: string) {
    ip == entry || ('/' in entry && ip == BeforeSlash(entry))
  }

  datatype ApiKeyAccessControl = ApiKeyAccessControl(allowedIps: seq<string>, allowedDomains: seq<string>) {

    /** No list restricts anything. */
    predicate Unrestricted() {
      allowedIps == [] && allowedDomains == []
    }

    /**
     * `is_allowed`: allowed without restrictions; otherwise only a given
     * address admitted by some IP entry or a given domain matched by some
     * domain entry is allowed.
     */
    function IsAllowed(ip: Option<string>, domain: Option<string>): (ok: bool)
      ensures ok <==>
        Unrestricted()
        || (Given(ip) && exists k :: 0 <= k < |allowedIps| && IpEntryAdmits(ip.value, allowedIps[k]))
        || (Given(domain) && exists k :: 0 <= k < |allowedDomains| && DomainEntryMatches(domain.value, allowedDomains[k]))
    {
      if Unrestricted() then true
      else if Given(ip) && allowedIps != [] && (ip.value in allowedIps || CidrLoop(ip.value, allowedIps)) then true
      else if Given(domain) && allowedDomains != [] && DomainLoop(domain.value, allowedDomains) then true
      else if allowedIps != [] || allowedDomains != [] then false
      else true
    }
  }

  /**
   * A CIDR entry `a/n` admits the address `a` and, through the exact
   * membership test, the literal text `a/n`; no range is computed.
   */
  lemma CidrIsExactAddress(ip: string, a: string, n: string)
    requires '/' !in a
    ensures IpEntryAdmits(ip, a + "/" + n) <==> ip == a || ip == a + "/" + n
  {
    var e := a + "/" + n;
    assert e[|a|] == '/' && e[..|a|] == a;
  }

  /** A wildcard entry `*.base` matches `base` itself and every name ending in `.base`. */
  lemma WildcardMatches(domain: string, base: string)
    ensures DomainEntryMatches(domain, "*." + base) <==> domain == base || EndsWith(domain, "." + base)
  {
    var e := "*." + base;
    assert StartsWith(e, "*.");
    assert e[2..] == base;
  }

  /** With some list non-empty, a request that names neither address nor domain is refused. */
  lemma AnonymousRefused(ac: ApiKeyAccessControl)
    requires !ac.Unrestricted()
    ensures !ac.IsAllowed(None, None)
  {
  }
}
