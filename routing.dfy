/** The request-interception rule that both test scripts install with
    `page.route` for every URL before navigating: requests to tracking and
    analytics hosts are aborted, everything else continues. */
module Routing {
  import opened Strings

  /** The blocked host fragments, identical in both scripts. */
  const BlockedDomains: seq<string> := [
    "cdn.transcend.io",
    "www.googletagmanager.com",
    "googletagmanager.com",
    "google-analytics.com",
    "doubleclick.net"
  ]

  datatype RouteDecision = Abort | Continue

  /** `blockedDomains.some(domain => url.includes(domain))`. */
  function ShouldBlock(url: string): (b: bool)
    ensures b <==> exists k :: 0 <= k < |BlockedDomains| && Occurs(url, BlockedDomains[k])
  {
    IncludesAny(url, BlockedDomains)
  }

  /** The route handler: a request is aborted exactly when some blocked
      fragment is a substring of its URL, and continues otherwise. */
  function Route(url: string): (d: RouteDecision)
    ensures d == Abort <==> exists k :: 0 <= k < |BlockedDomains| && Occurs(url, BlockedDomains[k])
    ensures d == Continue <==> forall k :: 0 <= k < |BlockedDomains| ==> !Occurs(url, BlockedDomains[k])
  {
    if ShouldBlock(url) then Abort else Continue
  }

  /** `googletagmanager.com` is a substring of `www.googletagmanager.com`. */
  lemma BareHostInWwwHost()
    ensures Includes(BlockedDomains[1], BlockedDomains[2])
  {
    var www := BlockedDomains[1];
    assert StartsWith(www[4..], BlockedDomains[2]);
    assert www[4..] == www[1..][1..][1..][1..];
  }

  /** The `www.googletagmanager.com` entry never decides anything: every URL
      that contains it also contains `googletagmanager.com`, so the list
      without it blocks exactly the same requests. */
  lemma WwwEntryIsRedundant(url: string)
    ensures ShouldBlock(url) == IncludesAny(url, BlockedDomains[..1] + BlockedDomains[2..])
  {
    var rest := BlockedDomains[..1] + BlockedDomains[2..];
    if ShouldBlock(url) {
      var k :| 0 <= k < |BlockedDomains| && Occurs(url, BlockedDomains[k]);
      if k == 1 {
        BareHostInWwwHost();
        IncludesIffOccurs(url, BlockedDomains[1]);
        IncludesTransitive(url, BlockedDomains[1], BlockedDomains[2]);
        IncludesIffOccurs(url, BlockedDomains[2]);
        assert rest[1] == BlockedDomains[2];
      } else {
        assert rest[if k == 0 then 0 else k - 1] == BlockedDomains[k];
      }
    }
    if IncludesAny(url, rest) {
      var k :| 0 <= k < |rest| && Occurs(url, rest[k]);
      assert rest[k] == BlockedDomains[if k == 0 then 0 else k + 1];
    }
  }
}
