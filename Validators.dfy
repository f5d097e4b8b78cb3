/** URL checks of scraper/validators.py. validate_url_format, extract_domain,
    check_domain_whitelist, validate_whitelisted_url, is_private_ip and
    block_private_ip are identical to validate_url, extract_domain,
    is_whitelisted_store, validate_whitelisted_url, is_private_ip and
    resolve_and_validate_url of core/security.py and reuse those definitions;
    validate_url_complete, which chains them, is defined here. */
module Validators {
  import opened Common
  import opened Security

  /** validate_url_complete: format, then (when asked) the default whitelist,
      then the private-address check; the resolver is a parameter. */
  function ValidateUrlComplete(url: string, checkWhitelist: bool, dns: string -> Option<seq<ParsedIp>>): (r: SsrfResult)
    ensures ValidateUrl(url).Invalid? ==> r == Rejected(ValidateUrl(url).error)
    ensures checkWhitelist && ValidateUrl(url).Valid? && !IsWhitelistedStore(ValidateUrl(url).url, None)
            ==> r == Rejected(UnsupportedStore(ExtractDomain(ValidateUrl(url).url)))
    ensures !checkWhitelist && ValidateUrl(url).Valid? ==> r == ResolveAndValidateUrl(ValidateUrl(url).url, dns)
    ensures r.SafeUrl? ==> ValidateUrl(url).Valid?
    ensures r.SafeUrl? && checkWhitelist ==> IsWhitelistedStore(ValidateUrl(url).url, None)
    ensures r.Rejected? && r.error.UnsupportedStore? ==> checkWhitelist
  {
    var v := ValidateUrl(url);
    if v.Invalid? then Rejected(v.error)
    else if checkWhitelist && !IsWhitelistedStore(v.url, None) then Rejected(UnsupportedStore(ExtractDomain(v.url)))
    else
      var r := ResolveAndValidateUrl(v.url, dns);
      assert r.Rejected? ==> ValidateUrl(v.url).Invalid? || r.error.DnsFailure?;
      r
  }

  /** The whitelist refusal happens before the resolver is consulted: any two
      resolvers give the same answer for a non-whitelisted store. */
  lemma UnsupportedStoreNeedsNoDns(url: string, dns1: string -> Option<seq<ParsedIp>>, dns2: string -> Option<seq<ParsedIp>>)
    requires ValidateUrl(url).Valid? && !IsWhitelistedStore(ValidateUrl(url).url, None)
    ensures ValidateUrlComplete(url, true, dns1) == ValidateUrlComplete(url, true, dns2)
    ensures ValidateUrlComplete(url, true, dns1).Rejected?
  {
  }
}
