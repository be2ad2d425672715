/**
 * The platform seen from the bridges: the values Network.framework hands to
 * the browse, connection and listener callbacks, and the callbacks the
 * bridges make in return. Platform objects themselves (browsers,
 * connections, listeners, timers) are modelled as small handle classes in
 * the modules that own them.
 */
module Network {

  datatype Option<+T> = None | Some(value: T)

  type byte = x: int | 0 <= x < 0x100
  type uint16 = x: int | 0 <= x < 0x1_0000

  /** POSIX "operation not permitted". */
  const EPERM: int := 1
  /** kDNSServiceErr_NoAuth. */
  const DnsNoAuth: int := -65555
  /** kDNSServiceErr_PolicyDenied. */
  const DnsPolicyDenied: int := -65570

  /** NWEndpoint.Host: a host name or a literal address in its textual form. */
  datatype Host = Name(hostName: string) | IPv4(v4: string) | IPv6(v6: string)

  /** NWEndpoint, reduced to the cases the bridges distinguish. */
  datatype Endpoint =
    | Service(name: string, serviceType: string, domain: string)
    | HostPort(host: Host, port: uint16)
    | OtherEndpoint

  /** NWError; the description stands for localizedDescription. */
  datatype NWError = Posix(code: int) | Dns(dnsCode: int) | OtherError(description: string)

  /** The state values of NWBrowser, NWConnection and NWListener. */
  datatype State = Ready | Failed(error: NWError) | Waiting(error: NWError) | Cancelled | OtherState

  /** NWBrowser.Result.Metadata: Bonjour TXT dictionary or nothing. */
  datatype Metadata = Bonjour(txt: map<string, string>) | NoMetadata

  datatype BrowseResult = BrowseResult(endpoint: Endpoint, metadata: Metadata)

  /** NWBrowser.Result.Change. */
  datatype Change =
    | Added(result: BrowseResult)
    | Removed(result: BrowseResult)
    | Changed(oldResult: BrowseResult, newResult: BrowseResult)
    | Identical

  datatype PermissionState = Undetermined | Granted | Denied

  /** The error strings the bridges pass to onError, as tokens. */
  datatype Message =
    | PermissionDeniedMessage        // "Network permission denied. Please allow ..."
    | BrowserFailed(error: NWError)  // "Browser failed: ..."
    | BrowserWaitingTimeout(error: NWError)
    | BrowserWaiting(error: NWError)
    | DnsErrorMessage(dnsCode: int)  // "DNS error: <code>"
    | ResolutionFailed(error: NWError)
    | ResolutionWaiting(error: NWError)
    | NoEndpointInformation          // "Could not get endpoint information"

  /** The arguments of one resolveService call. */
  datatype Request = Request(name: string, serviceType: string, domain: string)

  /** The arguments of an onResolved call. */
  datatype ServiceInfo = ServiceInfo(
    name: string, addresses: seq<string>, port: int, hostname: string, txt: map<string, seq<byte>>)

  /** One call of a callback the bridge was given. */
  datatype Callback =
    | ServiceFound(name: string, serviceType: string, domain: string)
    | ServiceRemoved(name: string)
    | Error(message: Message)
    | PermissionChanged(permission: PermissionState)
    | ServiceResolved(request: Request, info: ServiceInfo)

  /** The dictionary key "name.type.domain" both bridges use. */
  function Key(name: string, serviceType: string, domain: string): string
  {
    name + "." + serviceType + "." + domain
  }

  /** The key starts with the name and a dot and ends with the domain. */
  lemma KeyParts(name: string, serviceType: string, domain: string)
    ensures var k := Key(name, serviceType, domain);
      |k| == |name| + |serviceType| + |domain| + 2 &&
      k[..|name|] == name && k[|name|] == '.' && k[|k| - |domain|..] == domain
  {
  }

  /** The key is not injective: a dot inside a name or type makes two identities share one key. */
  lemma KeyCollision()
    ensures Request("a.b", "c", "d") != Request("a", "b.c", "d")
    ensures Key("a.b", "c", "d") == Key("a", "b.c", "d")
  {
    assert Key("a.b", "c", "d") == "a.b.c.d";
    assert Key("a", "b.c", "d") == "a.b.c.d";
  }

  /** The key of a service endpoint; other endpoints have none. */
  function EndpointKey(e: Endpoint): (k: Option<string>)
    ensures k.Some? <==> e.Service?
    ensures e.Service? ==> k.value == Key(e.name, e.serviceType, e.domain)
  {
    match e
    case Service(n, t, d) => Some(Key(n, t, d))
    case _ => None
  }

  /**
   * The host, addresses and port reported for a remote endpoint: a host
   * name is only the hostname, an IP address is both the hostname and the
   * one address, and an endpoint without a host and port reports port 0.
   */
  function DescribesEndpoint(info: ServiceInfo, endpoint: Endpoint): (b: bool)
    ensures b ==> |info.addresses| <= 1
    ensures b && info.addresses != [] ==> info.addresses == [info.hostname]
    ensures b && !endpoint.HostPort? ==> info.port == 0 && info.addresses == []
  {
    match endpoint
    case HostPort(host, port) =>
      && info.port == port
      && (match host
          case Name(hostName) => info.hostname == hostName && info.addresses == []
          case IPv4(v4) => info.hostname == v4 && info.addresses == [v4]
          case IPv6(v6) => info.hostname == v6 && info.addresses == [v6])
    case Service(serviceName, _, _) => info.hostname == serviceName && info.port == 0 && info.addresses == []
    case OtherEndpoint => info.hostname == "" && info.port == 0 && info.addresses == []
  }

  /** The UTF-8 encoding of one Unicode scalar value. */
  function EncodeChar(c: char): (r: seq<byte>)
    ensures 1 <= |r| <= 4
    ensures |r| == 1 <==> c as int < 0x80
    ensures |r| == 1 ==> r[0] == c as int
    ensures forall i :: 1 <= i < |r| ==> 0x80 <= r[i] < 0xC0
  {
    var n := c as int;
    if n < 0x80 then [n]
    else if n < 0x800 then [0xC0 + n / 0x40, 0x80 + n % 0x40]
    else if n < 0x1_0000 then [0xE0 + n / 0x1000, 0x80 + (n / 0x40) % 0x40, 0x80 + n % 0x40]
    else [0xF0 + n / 0x4_0000, 0x80 + (n / 0x1000) % 0x40, 0x80 + (n / 0x40) % 0x40, 0x80 + n % 0x40]
  }

  /** String.data(using: .utf8); for a Swift string this never fails. */
  function Utf8(s: string): (r: seq<byte>)
    ensures |s| <= |r| <= 4 * |s|
    ensures r == [] <==> s == []
  {
    if s == [] then [] else EncodeChar(s[0]) + Utf8(s[1..])
  }

  /** An ASCII string encodes to its own code points. */
  lemma {:induction false} Utf8OfAscii(s: string)
    requires forall i :: 0 <= i < |s| ==> s[i] as int < 0x80
    ensures |Utf8(s)| == |s|
    ensures forall i :: 0 <= i < |s| ==> Utf8(s)[i] == s[i] as int
  {
    if s != [] {
      Utf8OfAscii(s[1..]);
      assert Utf8(s) == [s[0] as int] + Utf8(s[1..]);
    }
  }
}
