/**
 * Which host and port `process` connects to, and whether it resolves the
 * host first (request_engine.py:26-38).
 */
module EndpointSelection {
  import opened Wrappers
  import PyText

  const HttpsPort: int := 443
  const HttpPort: int := 80

  /**
   * The parts of `urlparse(request.url)` that selection reads.  `hostname`
   * and `port` are `None` when the URL has none.
   */
  datatype Url = Url(scheme: string, hostname: Option<string>, port: Option<int>)

  /** The address handed to `connect`, and whether `resolve` runs before it. */
  datatype Endpoint = Endpoint(host: string, port: int, resolve: bool)

  /** `443 if urlp.scheme == 'https' else 80`. */
  function DefaultPort(scheme: string): (p: int)
    ensures p == HttpsPort <==> scheme == "https"
    ensures p != HttpsPort ==> p == HttpPort
  {
    if scheme == "https" then HttpsPort else HttpPort
  }

  /** Python truthiness of `urlp.port`: present and non-zero. */
  predicate Truthy(port: Option<int>)
  {
    port.Some? && port.value != 0
  }

  /** `urlp.port if urlp.port else default_port`. */
  function ConnectPort(url: Url): (p: int)
    ensures p != 0
    ensures Truthy(url.port) ==> p == url.port.value
    ensures !Truthy(url.port) ==> p == DefaultPort(url.scheme)
  {
    if Truthy(url.port) then url.port.value else DefaultPort(url.scheme)
  }

  /**
   * Lines 26-38: the stripped hostname, or the `_serverIPAddress` override
   * when the request carries one (then no resolve).  A URL without a hostname
   * makes `urlp.hostname.strip()` raise, override or not.
   */
  function SelectEndpoint(url: Url, serverIPAddress: Option<string>): (r: Result<Endpoint>)
    ensures r.Failure? <==> url.hostname.None?
    ensures r.Success? ==> r.value.port == ConnectPort(url)
    ensures r.Success? ==> (r.value.resolve <==> serverIPAddress.None?)
    ensures r.Success? && serverIPAddress.Some? ==> r.value.host == serverIPAddress.value
    ensures r.Success? && serverIPAddress.None? ==> r.value.host == PyText.Strip(url.hostname.value)
  {
    if url.hostname.None? then
      Failure("AttributeError: 'NoneType' object has no attribute 'strip'")
    else
      var host := PyText.Strip(url.hostname.value);
      var port := ConnectPort(url);
      match serverIPAddress
      case Some(ip) => Success(Endpoint(ip, port, false))
      case None => Success(Endpoint(host, port, true))
  }
}
