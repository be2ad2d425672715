/**
 * The iOS side of `discoverServices(type)`: the Kotlin closures that turn
 * the basic bridge's callbacks into DiscoveryEvent values, the NSData to
 * ByteArray copy, and the callbackFlow that carries the events and stops
 * the bridge when it is closed.
 */
module Discovery {
  import opened Network
  import opened TypeStrings
  import BasicBridge

  /** An Objective-C object as Kotlin sees it in an untyped collection. */
  datatype ObjCValue = NSString(str: string) | NSData(bytes: seq<byte>) | OtherObject | Null

  datatype DiscoveredService = DiscoveredService(
    name: string, addresses: seq<string>, host: string, serviceType: string, port: int,
    txt: map<string, Option<seq<byte>>>)

  /**
   * The events of the stream. The resolve capability of Discovered and
   * Resolved is the (name, type, domain) its closure re-resolves with.
   */
  datatype DiscoveryEvent =
    | Discovered(service: DiscoveredService, resolve: Request)
    | Resolved(service: DiscoveredService, resolve: Request)
    | Removed(service: DiscoveredService)

  const BrowseDomain: string := "local."

  function OrElse(o: Option<string>, default: string): string
  {
    if o.Some? then o.value else default
  }

  /** The service type passed to the browser: `type.stripLocal.qualified`. */
  function BrowseType(t: string): (r: string)
    ensures EndsWith(r, ".")
    ensures IsPrefix(r[..|r| - 1], t)
  {
    Qualified(StripLocal(t))
  }

  lemma BrowseTypeExamples()
    ensures BrowseType("_http._tcp") == "_http._tcp."
    ensures BrowseType("_http._tcp.") == "_http._tcp."
    ensures BrowseType("_http._tcp.local.") == "_http._tcp."
    ensures BrowseType("_http._tcp.local") == "_http._tcp."
  {
    StripLocalExamples();
    assert !EndsWith("_http._tcp", ".");
    assert EndsWith("_http._tcp.", ".");
    assert !EndsWith("_http._tcp.", ".local.") && !EndsWith("_http._tcp.", ".local");
  }

  /** Kotlin's Long.toInt(): the low 32 bits as a signed value. */
  function ToInt32(x: int): (r: int)
    ensures -0x8000_0000 <= r < 0x8000_0000
    ensures (r - x) % 0x1_0000_0000 == 0
  {
    (x + 0x8000_0000) % 0x1_0000_0000 - 0x8000_0000
  }

  lemma ToInt32KeepsPorts(port: int)
    requires 0 <= port < 0x1_0000
    ensures ToInt32(port) == port
  {
  }

  /** NSData.toByteArray as a value: empty data is null, anything else its exact bytes. */
  function BytesOf(data: seq<byte>): (r: Option<seq<byte>>)
    ensures r.None? <==> data == []
    ensures r.Some? ==> r.value == data
  {
    if |data| == 0 then None else Some(data)
  }

  /** NSData.toByteArray: a fresh array filled with the data's bytes, or null for no bytes. */
  method ToByteArray(data: seq<byte>) returns (r: Option<array<byte>>)
    ensures r.None? <==> BytesOf(data).None?
    ensures r.Some? ==> fresh(r.value) && r.value[..] == BytesOf(data).value
  {
    if |data| == 0 {
      return None;
    }
    var a := new byte[|data|];
    var i := 0;
    while i < |data|
      invariant 0 <= i <= |data|
      invariant forall j :: 0 <= j < i ==> a[j] == data[j]
    {
      a[i] := data[i];
      i := i + 1;
    }
    return Some(a);
  }

  /** `mapNotNull { it?.toString() }`, each element given by its string form or null. */
  function NonNull(xs: seq<Option<string>>): (r: seq<string>)
    ensures |r| <= |xs|
    ensures forall s :: s in r <==> Some(s) in xs
    decreases |xs|
  {
    if xs == [] then []
    else (if xs[0].Some? then [xs[0].value] else []) + NonNull(xs[1..])
  }

  /** Order is kept: the non-null entries of a concatenation are concatenated. */
  lemma {:induction false} NonNullAppend(a: seq<Option<string>>, b: seq<Option<string>>)
    ensures NonNull(a + b) == NonNull(a) + NonNull(b)
    decreases |a|
  {
    if a != [] {
      assert (a + b)[1..] == a[1..] + b;
      NonNullAppend(a[1..], b);
    } else {
      assert a + b == b;
    }
  }

  /** A list of strings as Kotlin's List<*>: every element present. */
  function Present(xs: seq<string>): (r: seq<Option<string>>)
    ensures |r| == |xs| && forall i :: 0 <= i < |xs| ==> r[i] == Some(xs[i])
  {
    seq(|xs|, i requires 0 <= i < |xs| => Some(xs[i]))
  }

  /** A list without nulls is kept as it is. */
  lemma {:induction false} NonNullOfPresent(xs: seq<string>)
    ensures NonNull(Present(xs)) == xs
    decreases |xs|
  {
    if xs != [] {
      assert Present(xs)[1..] == Present(xs[1..]);
      NonNullOfPresent(xs[1..]);
      assert [xs[0]] + xs[1..] == xs;
    }
  }

  /** The TXT map: entries with a String key and an NSData value, the data through toByteArray. */
  function TxtMap(txt: map<ObjCValue, ObjCValue>): (r: map<string, Option<seq<byte>>>)
    ensures forall s :: s in r <==> NSString(s) in txt && txt[NSString(s)].NSData?
    ensures forall s :: s in r ==> r[s] == BytesOf(txt[NSString(s)].bytes)
  {
    map k | k in txt && k.NSString? && txt[k].NSData? :: k.str := BytesOf(txt[k].bytes)
  }

  /** The Discovered event built by the onServiceFound closure. */
  function DiscoveredEvent(requestedType: string, name: Option<string>, serviceType: Option<string>,
                           domain: Option<string>): (e: DiscoveryEvent)
    ensures e.Discovered?
    ensures e.service.addresses == [] && e.service.host == "" && e.service.port == 0 && e.service.txt == map[]
    ensures e.service.name == OrElse(name, "")
    ensures e.service.serviceType == OrElse(serviceType, BrowseType(requestedType))
    ensures e.resolve == Request(e.service.name, e.service.serviceType, OrElse(domain, BrowseDomain))
  {
    var serviceName := OrElse(name, "");
    var serviceDomain := OrElse(domain, BrowseDomain);
    var serviceTypeValue := OrElse(serviceType, BrowseType(requestedType));
    Discovered(DiscoveredService(serviceName, [], "", serviceTypeValue, 0, map[]),
               Request(serviceName, serviceTypeValue, serviceDomain))
  }

  /** The Removed event built by the onServiceRemoved closure: the caller's type, unnormalised. */
  function RemovedEvent(requestedType: string, name: Option<string>): (e: DiscoveryEvent)
    ensures e.Removed?
    ensures e.service.addresses == [] && e.service.host == "" && e.service.port == 0 && e.service.txt == map[]
    ensures e.service.name == OrElse(name, "")
    ensures e.service.serviceType == requestedType
  {
    DiscoveryEvent.Removed(DiscoveredService(OrElse(name, ""), [], "", requestedType, 0, map[]))
  }

  /** The Resolved event built by the onResolved closure of resolve(request). */
  function ResolvedEvent(request: Request, name: Option<string>, addresses: Option<seq<Option<string>>>,
                         port: int, hostname: Option<string>, txtRecords: Option<map<ObjCValue, ObjCValue>>)
    : (e: DiscoveryEvent)
    ensures e.Resolved? && e.resolve == request
    ensures e.service.name == OrElse(name, request.name)
    ensures e.service.host == OrElse(hostname, "")
    ensures e.service.serviceType == request.serviceType
    ensures e.service.port == ToInt32(port)
    ensures addresses.None? ==> e.service.addresses == []
    ensures addresses.Some? ==> e.service.addresses == NonNull(addresses.value)
    ensures txtRecords.None? ==> e.service.txt == map[]
    ensures txtRecords.Some? ==> e.service.txt == TxtMap(txtRecords.value)
  {
    var addressList := if addresses.Some? then NonNull(addresses.value) else [];
    var txtMap := if txtRecords.Some? then TxtMap(txtRecords.value) else map[];
    Resolved(DiscoveredService(OrElse(name, request.name), addressList, OrElse(hostname, ""),
                               request.serviceType, ToInt32(port), txtMap),
             request)
  }

  /**
   * A service discovered under a bare type and then removed: the Removed
   * event carries the caller's type, not the normalised type of the
   * Discovered event.
   */
  lemma RemovedTypeDiffersFromDiscovered()
    ensures RemovedEvent("_http._tcp", Some("printer1")).service.serviceType
         != DiscoveredEvent("_http._tcp", Some("printer1"), None, None).service.serviceType
  {
    BrowseTypeExamples();
  }

  /** The bridge's TXT dictionary as Kotlin receives it. */
  function AsObjC(txt: map<string, seq<byte>>): map<ObjCValue, ObjCValue>
  {
    map o | o in (set s | s in txt :: NSString(s)) :: o := NSData(txt[o.str])
  }

  /** Bridge TXT data reaches the event unchanged, empty data as null. */
  lemma TxtRoundTrip(txt: map<string, seq<byte>>)
    ensures TxtMap(AsObjC(txt)).Keys == txt.Keys
    ensures forall k :: k in txt ==> TxtMap(AsObjC(txt))[k] == BytesOf(txt[k])
  {
    var o := AsObjC(txt);
    forall k | k in txt ensures NSString(k) in o && o[NSString(k)] == NSData(txt[k]) {
      assert NSString(k) in (set s | s in txt :: NSString(s));
    }
  }

  /**
   * The stream events for one callback of the bridge: one event for each
   * found, removed or resolved callback, of the matching kind; errors are
   * only logged.
   */
  function EventsFor(requestedType: string, c: Callback): (es: seq<DiscoveryEvent>)
    ensures |es| == (if c.ServiceFound? || c.ServiceRemoved? || c.ServiceResolved? then 1 else 0)
    ensures c.ServiceFound? ==> es[0].Discovered?
    ensures c.ServiceRemoved? ==> es[0].Removed?
    ensures c.ServiceResolved? ==> es[0].Resolved? && es[0].resolve == c.request
  {
    match c
    case ServiceFound(n, t, d) => [DiscoveredEvent(requestedType, Some(n), Some(t), Some(d))]
    case ServiceRemoved(n) => [RemovedEvent(requestedType, Some(n))]
    case Error(_) => []
    case PermissionChanged(_) => []
    case ServiceResolved(request, info) =>
      [ResolvedEvent(request, Some(info.name),
                     Some(Present(info.addresses)),
                     info.port, Some(info.hostname), Some(AsObjC(info.txt)))]
  }

  /** The stream events for a run of callbacks, in order: at most one per callback. */
  function Events(requestedType: string, cs: seq<Callback>): (es: seq<DiscoveryEvent>)
    ensures |es| <= |cs|
    decreases |cs|
  {
    if cs == [] then [] else EventsFor(requestedType, cs[0]) + Events(requestedType, cs[1..])
  }

  lemma {:induction false} EventsAppend(t: string, a: seq<Callback>, b: seq<Callback>)
    ensures Events(t, a + b) == Events(t, a) + Events(t, b)
    decreases |a|
  {
    if a != [] {
      assert (a + b)[1..] == a[1..] + b;
      EventsAppend(t, a[1..], b);
    } else {
      assert a + b == b;
    }
  }

  /** Browse and resolve errors never reach the stream. */
  lemma {:induction false} ErrorsNeverSent(t: string, cs: seq<Callback>)
    requires forall i :: 0 <= i < |cs| ==> cs[i].Error?
    ensures Events(t, cs) == []
    decreases |cs|
  {
    if cs != [] {
      ErrorsNeverSent(t, cs[1..]);
    }
  }

  /** A resolved callback becomes an event the same as the bridge's onResolved arguments. */
  lemma ResolvedCarriesInfo(t: string, request: Request, info: ServiceInfo)
    requires 0 <= info.port < 0x1_0000
    ensures var e := EventsFor(t, ServiceResolved(request, info))[0];
      && e.service.name == info.name && e.service.host == info.hostname
      && e.service.addresses == info.addresses && e.service.port == info.port
      && e.service.serviceType == request.serviceType && e.resolve == request
      && (forall k :: k in e.service.txt <==> k in info.txt)
  {
    NonNullOfPresent(info.addresses);
    TxtRoundTrip(info.txt);
  }

  /**
   * The callbackFlow of discoverServices(type): the bridge it browses
   * with, the events sent so far and whether the consumer has closed it.
   * `forwarded` counts the bridge callbacks that have reached the closures.
   */
  class DiscoveryFlow {
    const requestedType: string
    const bridge: BasicBridge.NWBrowserBridge
    var events: seq<DiscoveryEvent>
    var forwarded: nat
    var closed: bool

    ghost predicate Valid()
      reads this, bridge, bridge.activeConnections.Values
    {
      bridge.Valid() && forwarded <= |bridge.callbacks|
    }

    /** discoverServices(type): browse for the normalised type in "local.". */
    constructor (requestedType: string)
      ensures Valid() && fresh(bridge) && events == [] && !closed
      ensures this.requestedType == requestedType
      ensures bridge.browser != null && fresh(bridge.browser) && bridge.browser.started
      ensures bridge.browser.serviceType == BrowseType(requestedType) && bridge.browser.domain == BrowseDomain
      ensures bridge.callbacks == [] && forwarded == 0 && bridge.activeConnections == map[]
    {
      this.requestedType := requestedType;
      var b := new BasicBridge.NWBrowserBridge();
      b.StartBrowsing(BrowseType(requestedType), Some(BrowseDomain));
      bridge := b;
      events, forwarded, closed := [], 0, false;
    }

    /** The bridge's callbacks since the last delivery run their closures; a closed channel drops them. */
    method Deliver()
      requires Valid()
      modifies this
      ensures Valid() && forwarded == |bridge.callbacks| && closed == old(closed)
      ensures events == old(events) + (if closed then [] else Events(requestedType, bridge.callbacks[old(forwarded)..]))
    {
      if !closed {
        events := events + Events(requestedType, bridge.callbacks[forwarded..]);
      }
      forwarded := |bridge.callbacks|;
    }

    /** The resolve capability of an event: resolveService with the captured triple. */
    method Resolve(request: Request) returns (c: BasicBridge.Connection)
      requires Valid()
      modifies bridge
      ensures Valid() && fresh(c)
      ensures c.endpoint == Service(request.name, request.serviceType, request.domain) && c.request == request
      ensures bridge.callbacks == old(bridge.callbacks) && bridge.browser == old(bridge.browser)
      ensures bridge.activeConnections == old(bridge.activeConnections)[c.key := c]
    {
      c := bridge.ResolveService(request.name, request.serviceType, request.domain);
    }

    /**
     * awaitClose { browser.stop() }. The callbacks made before the close
     * have already sent their events, so they are delivered first.
     */
    method Close()
      requires Valid()
      modifies this, bridge, bridge.browser, bridge.activeConnections.Values
      ensures Valid() && closed && bridge.Stopped() && forwarded == |bridge.callbacks|
      ensures bridge.callbacks == old(bridge.callbacks)
      ensures events == old(events) +
        (if old(closed) then [] else Events(requestedType, old(bridge.callbacks)[old(forwarded)..]))
      ensures old(bridge.browser) != null ==> old(bridge.browser).cancelled
      ensures forall c :: c in old(bridge.activeConnections.Values) ==> c.cancelled
    {
      Deliver();
      bridge.Stop();
      closed := true;
    }
  }

  /** The found callback of the scenario below as a stream event. */
  lemma PrinterFound()
    ensures Events("_http._tcp", [ServiceFound("printer1", "_http._tcp.local.", "local.")]) == [Discovered(
      DiscoveredService("printer1", [], "", "_http._tcp.local.", 0, map[]),
      Request("printer1", "_http._tcp.local.", "local."))]
  {
    var cs := [ServiceFound("printer1", "_http._tcp.local.", "local.")];
    assert cs[1..] == [];
  }

  /** The resolved callback of the scenario below as a stream event. */
  lemma PrinterResolved(request: Request, info: ServiceInfo)
    requires info.name == "printer1" && DescribesEndpoint(info, HostPort(IPv4("10.0.0.5"), 631))
    ensures var es := Events("_http._tcp", [ServiceResolved(request, info)]);
      && |es| == 1 && es[0].Resolved? && es[0].service.name == "printer1"
      && es[0].service.addresses == ["10.0.0.5"] && es[0].service.host == "10.0.0.5" && es[0].service.port == 631
  {
    var cs := [ServiceResolved(request, info)];
    assert cs[1..] == [];
    ResolvedCarriesInfo("_http._tcp", request, info);
  }

  /** discoverServices("_http._tcp") and a printer added: one discovered event is sent. */
  method DiscoverPrinter() returns (flow: DiscoveryFlow)
    ensures fresh(flow) && fresh(flow.bridge) && flow.Valid()
    ensures flow.requestedType == "_http._tcp" && !flow.closed
    ensures flow.forwarded == |flow.bridge.callbacks|
    ensures flow.bridge.browser != null && fresh(flow.bridge.browser) && flow.bridge.activeConnections == map[]
    ensures flow.events == [Discovered(
      DiscoveredService("printer1", [], "", "_http._tcp.local.", 0, map[]),
      Request("printer1", "_http._tcp.local.", "local."))]
  {
    flow := new DiscoveryFlow("_http._tcp");
    var printer := BrowseResult(Service("printer1", "_http._tcp.local.", "local."), NoMetadata);
    flow.bridge.OnBrowseResultsChanged([Added(printer)]);
    assert [Added(printer)][..0] == [];
    assert flow.bridge.callbacks[0..] == [ServiceFound("printer1", "_http._tcp.local.", "local.")];
    flow.Deliver();
    PrinterFound();
  }

  /** The printer's event resolved, its connection ready at 10.0.0.5:631: one resolved event is sent. */
  method ResolvePrinter(flow: DiscoveryFlow)
    requires flow.Valid() && flow.requestedType == "_http._tcp" && !flow.closed
    requires flow.forwarded == |flow.bridge.callbacks| && flow.bridge.activeConnections == map[]
    modifies flow, flow.bridge
    ensures flow.Valid() && !flow.closed && flow.forwarded == |flow.bridge.callbacks|
    ensures flow.bridge.browser == old(flow.bridge.browser) && flow.bridge.activeConnections == map[]
    ensures |flow.events| == |old(flow.events)| + 1 && flow.events[..|old(flow.events)|] == old(flow.events)
    ensures flow.events[|old(flow.events)|].Resolved?
    ensures flow.events[|old(flow.events)|].service.addresses == ["10.0.0.5"]
    ensures flow.events[|old(flow.events)|].service.host == "10.0.0.5"
    ensures flow.events[|old(flow.events)|].service.port == 631
    ensures flow.events[|old(flow.events)|].service.name == "printer1"
  {
    var c := flow.Resolve(Request("printer1", "_http._tcp.local.", "local."));
    var n := |flow.bridge.callbacks|;
    flow.bridge.OnConnectionState(c, Ready, Some(HostPort(IPv4("10.0.0.5"), 631)));
    var resolved := flow.bridge.callbacks[n];
    assert flow.bridge.callbacks[n..] == [resolved];
    PrinterResolved(resolved.request, resolved.info);
    flow.Deliver();
  }

  /**
   * discoverServices("_http._tcp"): a printer is added, resolved to
   * 10.0.0.5:631, and the stream is closed.
   */
  method PrinterScenario() returns (events: seq<DiscoveryEvent>)
    ensures |events| == 2
    ensures events[0] == Discovered(
      DiscoveredService("printer1", [], "", "_http._tcp.local.", 0, map[]),
      Request("printer1", "_http._tcp.local.", "local."))
    ensures events[1].Resolved?
    ensures events[1].service.addresses == ["10.0.0.5"] && events[1].service.host == "10.0.0.5"
    ensures events[1].service.port == 631 && events[1].service.name == "printer1"
  {
    var flow := DiscoverPrinter();
    ResolvePrinter(flow);
    var beforeClose := flow.events;
    flow.Close();
    flow.Deliver();
    assert flow.events == beforeClose;
    events := flow.events;
  }
}
