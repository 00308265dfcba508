/** Where the pages send their API calls, chosen from the page's host name. */
module Config {
  import opened Strings

  const ProxyApi := "/api"
  const LocalApi := "http://localhost:8000/api"

  predicate OnNetlify(hostname: string)
  {
    Contains(hostname, "netlify.app") || Contains(hostname, "netlify.com")
  }

  predicate IsLocalHost(hostname: string)
  {
    hostname == "localhost" || hostname == "127.0.0.1"
  }

  /** The API base URL: the proxy path on Netlify, the local server on a local host, the proxy path otherwise. */
  function ApiBaseUrl(hostname: string): (r: string)
    ensures r == ProxyApi || r == LocalApi
  {
    if OnNetlify(hostname) then ProxyApi
    else if IsLocalHost(hostname) then LocalApi
    else ProxyApi
  }

  /**
   * The local server is chosen exactly for the two local host names; the
   * Netlify test comes first but can never claim them, since neither
   * contains "netlify".
   */
  lemma ApiBaseUrlIff(hostname: string)
    ensures ApiBaseUrl(hostname) == LocalApi <==> IsLocalHost(hostname)
    ensures OnNetlify(hostname) ==> ApiBaseUrl(hostname) == ProxyApi
  {
    if IsLocalHost(hostname) {
      ContainsIff(hostname, "netlify.app");
      ContainsIff(hostname, "netlify.com");
    }
  }
}
