/**
 * The basic NWBrowserBridge (the one under shared/src/nativeInterop/swift,
 * which the build links): browsing without a results cache, without timers
 * and without permission reporting, a connection table for resolves, and
 * its own classification of browse failures. Every callback the bridge
 * makes is appended to `callbacks`.
 */
module BasicBridge {
  import opened Network
  import ExtendedBridge

  /** The onError message for a failed browser. */
  function FailureMessage(e: NWError): (m: Message)
    ensures m == PermissionDeniedMessage <==> e == Posix(EPERM)
    ensures m.DnsErrorMessage? <==> e.Dns?
    ensures e.Dns? ==> m == DnsErrorMessage(e.dnsCode)
    ensures e != Posix(EPERM) && !e.Dns? ==> m == BrowserFailed(e)
  {
    match e
    case Posix(code) => if code == EPERM then PermissionDeniedMessage else BrowserFailed(e)
    case Dns(code) => DnsErrorMessage(code)
    case OtherError(_) => BrowserFailed(e)
  }

  /** The callbacks the browser's stateUpdateHandler makes for a state. */
  function BrowserStateCallbacks(state: State): (cs: seq<Callback>)
    ensures forall c :: c in cs ==> c.Error?
    ensures state.Failed? ==> cs == [Error(FailureMessage(state.error))]
  {
    match state
    case Failed(e) => [Error(FailureMessage(e))]
    case Ready => []
    case Cancelled => []
    case Waiting(e) => [Error(BrowserWaiting(e))]
    case OtherState => []
  }

  /** Only failed and waiting report anything, each exactly one error. */
  lemma StateReports(state: State)
    ensures |BrowserStateCallbacks(state)| == (if state.Failed? || state.Waiting? then 1 else 0)
    ensures state.Waiting? ==> BrowserStateCallbacks(state) == [Error(BrowserWaiting(state.error))]
  {
  }

  /**
   * The DNS-SD "no auth" and "policy denied" codes, which the extended
   * bridge treats as a permission denial, are plain DNS errors here.
   */
  lemma DnsCodesAreNotPermissionErrors(code: int)
    ensures FailureMessage(Dns(code)) == DnsErrorMessage(code)
    ensures code == DnsNoAuth || code == DnsPolicyDenied ==>
      ExtendedBridge.IsPermissionError(Dns(code)) && FailureMessage(Dns(code)) != PermissionDeniedMessage
  {
  }

  /** The endpoint information resolveService reports; this bridge never has TXT records. */
  method ResolveTXTRecords(name: string, serviceType: string, domain: string) returns (txt: map<string, seq<byte>>)
    ensures txt == map[]
  {
    txt := map[];
  }

  /** extractServiceInfo: what onResolved is called with for a remote endpoint. */
  method ExtractServiceInfo(endpoint: Endpoint, name: string, serviceType: string, domain: string)
    returns (info: ServiceInfo)
    ensures info.name == name && info.txt == map[]
    ensures DescribesEndpoint(info, endpoint)
  {
    var addresses: seq<string> := [];
    var port: int := 0;
    var hostname: string := "";
    match endpoint {
      case HostPort(host, portValue) =>
        match host {
          case Name(hostName) =>
            hostname := hostName;
          case IPv4(v4) =>
            hostname := v4;
            addresses := addresses + [v4];
          case IPv6(v6) =>
            hostname := v6;
            addresses := addresses + [v6];
        }
        port := portValue;
      case Service(serviceName, _, _) =>
        hostname := serviceName;
      case OtherEndpoint =>
    }
    var txtRecords := ResolveTXTRecords(name, serviceType, domain);
    info := ServiceInfo(name, addresses, port, hostname, txtRecords);
  }

  /** An NWBrowser handle. */
  class Browser {
    const serviceType: string
    const domain: string
    var started: bool
    var cancelled: bool

    constructor (serviceType: string, domain: string)
      ensures this.serviceType == serviceType && this.domain == domain && !started && !cancelled
    {
      this.serviceType, this.domain := serviceType, domain;
      started, cancelled := false, false;
    }
  }

  /** An NWConnection opened by resolveService, with what its handler captured. */
  class Connection {
    const key: string
    const request: Request
    const endpoint: Endpoint
    var started: bool
    var cancelled: bool

    constructor (key: string, request: Request, endpoint: Endpoint)
      ensures this.key == key && this.request == request && this.endpoint == endpoint
      ensures !started && !cancelled
    {
      this.key, this.request, this.endpoint := key, request, endpoint;
      started, cancelled := false, false;
    }
  }

  class NWBrowserBridge {
    var browser: Browser?
    var activeConnections: map<string, Connection>
    /** Every callback made so far, in order. */
    var callbacks: seq<Callback>

    /** Tracked connections sit under their own keys and are live. */
    ghost predicate Valid()
      reads this, activeConnections.Values
    {
      forall k :: k in activeConnections ==> activeConnections[k].key == k && !activeConnections[k].cancelled
    }

    ghost predicate Stopped()
      reads this
    {
      browser == null && activeConnections == map[]
    }

    constructor ()
      ensures Valid() && Stopped() && callbacks == []
    {
      browser := null;
      activeConnections := map[];
      callbacks := [];
    }

    /** startBrowsing: browse for the type in the domain, "local." when none is given. */
    method StartBrowsing(serviceType: string, domain: Option<string>)
      requires Valid()
      modifies this
      ensures Valid()
      ensures browser != null && fresh(browser) && browser.started && !browser.cancelled
      ensures browser.serviceType == serviceType
      ensures browser.domain == (if domain.Some? then domain.value else "local.")
      ensures activeConnections == old(activeConnections) && callbacks == old(callbacks)
    {
      var domainToUse := if domain.Some? then domain.value else "local.";
      var b := new Browser(serviceType, domainToUse);
      browser := b;
      b.started := true;
    }

    /** The browser's stateUpdateHandler. */
    method OnBrowserState(state: State)
      requires Valid()
      modifies this
      ensures Valid()
      ensures callbacks == old(callbacks) + BrowserStateCallbacks(state)
      ensures browser == old(browser) && activeConnections == old(activeConnections)
    {
      match state {
        case Failed(e) =>
          match e {
            case Posix(code) =>
              if code == EPERM {
                callbacks := callbacks + [Error(PermissionDeniedMessage)];
              } else {
                callbacks := callbacks + [Error(BrowserFailed(e))];
              }
            case Dns(dnsError) =>
              callbacks := callbacks + [Error(DnsErrorMessage(dnsError))];
            case OtherError(_) =>
              callbacks := callbacks + [Error(BrowserFailed(e))];
          }
        case Ready =>
        case Cancelled =>
        case Waiting(e) =>
          callbacks := callbacks + [Error(BrowserWaiting(e))];
        case OtherState =>
      }
    }

    /**
     * The browser's browseResultsChangedHandler: the batch in the order
     * listed. It reports exactly what the extended bridge's handler
     * reports, and keeps no cache.
     */
    method OnBrowseResultsChanged(changes: seq<Change>)
      requires Valid()
      modifies this
      ensures Valid()
      ensures callbacks == old(callbacks) + ExtendedBridge.BatchCallbacks(changes)
      ensures browser == old(browser) && activeConnections == old(activeConnections)
    {
      var i := 0;
      while i < |changes|
        invariant 0 <= i <= |changes|
        invariant Valid()
        invariant callbacks == old(callbacks) + ExtendedBridge.BatchCallbacks(changes[..i])
        invariant browser == old(browser) && activeConnections == old(activeConnections)
      {
        HandleChange(changes[i]);
        assert changes[..i + 1][..i] == changes[..i];
        i := i + 1;
      }
      assert changes[..i] == changes;
    }

    /** One entry of a batch, as the body of the handler's loop treats it. */
    method HandleChange(change: Change)
      requires Valid()
      modifies this
      ensures Valid()
      ensures callbacks == old(callbacks) + ExtendedBridge.ChangeCallbacks(change)
      ensures browser == old(browser) && activeConnections == old(activeConnections)
    {
      match change {
        case Added(result) =>
          if result.endpoint.Service? {
            callbacks := callbacks + [ServiceFound(result.endpoint.name, result.endpoint.serviceType, result.endpoint.domain)];
          }
        case Removed(result) =>
          if result.endpoint.Service? {
            callbacks := callbacks + [ServiceRemoved(result.endpoint.name)];
          }
        case Changed(_, newResult) =>
          if newResult.endpoint.Service? {
            callbacks := callbacks + [ServiceFound(newResult.endpoint.name, newResult.endpoint.serviceType, newResult.endpoint.domain)];
          }
        case Identical =>
      }
    }

    /** stop(): cancel the browser and every tracked connection, clear the table. */
    method Stop()
      requires Valid()
      modifies this, browser, activeConnections.Values
      ensures Valid() && Stopped()
      ensures old(browser) != null ==> old(browser).cancelled
      ensures forall c :: c in old(activeConnections.Values) ==> c.cancelled
      ensures callbacks == old(callbacks)
      ensures old(Stopped()) ==> unchanged(this)
    {
      if browser != null {
        browser.cancelled := true;
      }
      browser := null;
      CancelAll(activeConnections);
      activeConnections := map[];
    }

    /** resolveService: a service endpoint from the strings, tracked under "name.type.domain". */
    method ResolveService(name: string, serviceType: string, domain: string) returns (c: Connection)
      requires Valid()
      modifies this
      ensures Valid() && fresh(c) && c.started && !c.cancelled
      ensures c.endpoint == Service(name, serviceType, domain)
      ensures c.request == Request(name, serviceType, domain)
      ensures c.key == Key(name, serviceType, domain)
      ensures activeConnections == old(activeConnections)[c.key := c]
      ensures browser == old(browser) && callbacks == old(callbacks)
    {
      var endpoint := Service(name, serviceType, domain);
      var connectionKey := Key(name, serviceType, domain);
      c := new Connection(connectionKey, Request(name, serviceType, domain), endpoint);
      activeConnections := activeConnections[connectionKey := c];
      c.started := true;
    }

    /** A resolve connection's stateUpdateHandler; `remote` is the path's remote endpoint if known. */
    method OnConnectionState(c: Connection, state: State, remote: Option<Endpoint>)
      requires Valid()
      modifies this, c
      ensures Valid()
      ensures state.Ready? || state.Failed? ==> c.cancelled && activeConnections == old(activeConnections) - {c.key}
      ensures !(state.Ready? || state.Failed?) ==> c.cancelled == old(c.cancelled) && activeConnections == old(activeConnections)
      ensures state.Ready? && remote.None? ==> callbacks == old(callbacks) + [Error(NoEndpointInformation)]
      ensures state.Ready? && remote.Some? ==>
        && |callbacks| == |old(callbacks)| + 1 && callbacks[..|old(callbacks)|] == old(callbacks)
        && callbacks[|old(callbacks)|].ServiceResolved?
        && callbacks[|old(callbacks)|].request == c.request
        && callbacks[|old(callbacks)|].info.name == c.request.name
        && callbacks[|old(callbacks)|].info.txt == map[]
        && DescribesEndpoint(callbacks[|old(callbacks)|].info, remote.value)
      ensures state.Failed? ==> callbacks == old(callbacks) + [Error(ResolutionFailed(state.error))]
      ensures state.Waiting? ==> callbacks == old(callbacks) + [Error(ResolutionWaiting(state.error))]
      ensures state.Cancelled? || state.OtherState? ==> callbacks == old(callbacks)
      ensures browser == old(browser)
    {
      match state {
        case Ready =>
          if remote.Some? {
            var info := ExtractServiceInfo(remote.value, c.request.name, c.request.serviceType, c.request.domain);
            callbacks := callbacks + [ServiceResolved(c.request, info)];
          } else {
            callbacks := callbacks + [Error(NoEndpointInformation)];
          }
          c.cancelled := true;
          activeConnections := activeConnections - {c.key};
        case Failed(e) =>
          callbacks := callbacks + [Error(ResolutionFailed(e))];
          c.cancelled := true;
          activeConnections := activeConnections - {c.key};
        case Waiting(e) =>
          callbacks := callbacks + [Error(ResolutionWaiting(e))];
        case Cancelled =>
        case OtherState =>
      }
    }
  }

  /** The loop in stop() that cancels every tracked connection. */
  method CancelAll(connections: map<string, Connection>)
    modifies connections.Values
    ensures forall c :: c in connections.Values ==> c.cancelled
  {
    var pending := connections.Keys;
    while pending != {}
      invariant pending <= connections.Keys
      invariant forall k :: k in connections && k !in pending ==> connections[k].cancelled
      decreases pending
    {
      var key :| key in pending;
      connections[key].cancelled := true;
      pending := pending - {key};
    }
  }
}
