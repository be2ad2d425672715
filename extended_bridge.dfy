/**
 * The extended NWBrowserBridge (the one under shared/src/swift): a browse
 * session with a results cache keyed by "name.type.domain", an in-flight
 * connection table keyed the same way, a waiting-state timer, an optional
 * permission trigger that runs before browsing, and permission-state
 * reporting. Every callback the bridge makes is appended to `callbacks`.
 */
module ExtendedBridge {
  import opened Network
  import opened PermissionTrigger

  // ---------------------------------------------------------------------
  // Error classification
  // ---------------------------------------------------------------------

  /** isPermissionError: EPERM, or a DNS-SD "no auth" / "policy denied" code. */
  function IsPermissionError(e: NWError): (b: bool)
    ensures b <==> e == Posix(EPERM) || e == Dns(DnsNoAuth) || e == Dns(DnsPolicyDenied)
  {
    match e
    case Posix(code) => code == EPERM
    case Dns(code) => code == DnsNoAuth || code == DnsPolicyDenied
    case OtherError(_) => false
  }

  /** The listener variant of the test is the same predicate. */
  lemma ListenerTestAgrees(e: NWError)
    ensures IsListenerPermissionError(e) == IsPermissionError(e)
  {
  }

  // ---------------------------------------------------------------------
  // Browse changes and the results cache
  // ---------------------------------------------------------------------

  /** The cache maps each key to a service result that has that key. */
  predicate WellKeyed(cache: map<string, BrowseResult>)
  {
    forall k :: k in cache ==> EndpointKey(cache[k].endpoint) == Some(k)
  }

  /**
   * The callbacks one change makes: at most one, a found callback for an
   * added or changed-to service, a removed callback for a removed service.
   */
  function ChangeCallbacks(change: Change): (cs: seq<Callback>)
    ensures |cs| <= 1
  {
    match change
    case Added(r) =>
      if r.endpoint.Service? then [ServiceFound(r.endpoint.name, r.endpoint.serviceType, r.endpoint.domain)] else []
    case Removed(r) =>
      if r.endpoint.Service? then [ServiceRemoved(r.endpoint.name)] else []
    case Changed(_, n) =>
      if n.endpoint.Service? then [ServiceFound(n.endpoint.name, n.endpoint.serviceType, n.endpoint.domain)] else []
    case Identical => []
  }

  /** A change makes a callback exactly when the result it adds, removes or changes to is a service. */
  lemma ChangeCallbacksMade(change: Change)
    ensures ChangeCallbacks(change) != [] <==> match change
      case Added(r) => r.endpoint.Service?
      case Removed(r) => r.endpoint.Service?
      case Changed(_, n) => n.endpoint.Service?
      case Identical => false
  {
  }

  /**
   * The cache after a batch, the changes taken in the order listed. Every
   * batch keeps each cached result under its own key.
   */
  function CacheAfter(cache: map<string, BrowseResult>, changes: seq<Change>): (r: map<string, BrowseResult>)
    ensures WellKeyed(cache) ==> WellKeyed(r)
    decreases |changes|
  {
    if changes == [] then cache
    else ApplyChange(CacheAfter(cache, changes[..|changes| - 1]), changes[|changes| - 1])
  }

  /** The callbacks a batch makes, in the order listed: at most one per change. */
  function BatchCallbacks(changes: seq<Change>): (cs: seq<Callback>)
    ensures |cs| <= |changes|
    decreases |changes|
  {
    if changes == [] then []
    else BatchCallbacks(changes[..|changes| - 1]) + ChangeCallbacks(changes[|changes| - 1])
  }

  /** What a change does to one key. */
  datatype Touch = Keep | Put(result: BrowseResult) | Drop

  function Effect(change: Change, k: string): Touch
  {
    match change
    case Added(r) => if EndpointKey(r.endpoint) == Some(k) then Put(r) else Keep
    case Removed(r) => if EndpointKey(r.endpoint) == Some(k) then Drop else Keep
    case Changed(o, n) =>
      if EndpointKey(n.endpoint) == Some(k) then Put(n)
      else if EndpointKey(o.endpoint) == Some(k) then Drop
      else Keep
    case Identical => Keep
  }

  function Lookup(cache: map<string, BrowseResult>, k: string): Option<BrowseResult>
  {
    if k in cache then Some(cache[k]) else None
  }

  /** The entry a touch leaves; a kept entry stays as it was. */
  function Outcome(t: Touch, before: Option<BrowseResult>): Option<BrowseResult>
  {
    match t
    case Keep => before
    case Put(r) => Some(r)
    case Drop => None
  }

  /**
   * The cache after one change, as the change handler updates it. Key by
   * key, the change sets, drops or keeps the entry as its effect says.
   */
  function ApplyChange(cache: map<string, BrowseResult>, change: Change): (r: map<string, BrowseResult>)
    ensures WellKeyed(cache) ==> WellKeyed(r)
  {
    match change
    case Added(r) =>
      if r.endpoint.Service? then cache[EndpointKey(r.endpoint).value := r] else cache
    case Removed(r) =>
      if r.endpoint.Service? then cache - {EndpointKey(r.endpoint).value} else cache
    case Changed(o, n) =>
      var dropped := if o.endpoint.Service? then cache - {EndpointKey(o.endpoint).value} else cache;
      if n.endpoint.Service? then dropped[EndpointKey(n.endpoint).value := n] else dropped
    case Identical => cache
  }

  /** Key by key, the change sets, drops or keeps the entry as its effect says. */
  lemma ApplyChangeAt(cache: map<string, BrowseResult>, change: Change, k: string)
    ensures Lookup(ApplyChange(cache, change), k) == Outcome(Effect(change, k), Lookup(cache, k))
  {
  }

  ghost predicate UntouchedFrom(changes: seq<Change>, k: string, from: nat)
  {
    forall j :: from <= j < |changes| ==> Effect(changes[j], k).Keep?
  }

  /**
   * The cache after a batch, key by key: the last change in the batch that
   * mentions the key decides its entry; a key no change mentions keeps the
   * entry it had.
   */
  lemma {:induction false} LastChangeDecides(cache: map<string, BrowseResult>, changes: seq<Change>, k: string)
    ensures UntouchedFrom(changes, k, 0) ==> Lookup(CacheAfter(cache, changes), k) == Lookup(cache, k)
    ensures forall i :: 0 <= i < |changes| && !Effect(changes[i], k).Keep? && UntouchedFrom(changes, k, i + 1) ==>
      Lookup(CacheAfter(cache, changes), k) == Outcome(Effect(changes[i], k), None)
    decreases |changes|
  {
    if changes != [] {
      var n := |changes| - 1;
      var front := changes[..n];
      LastChangeDecides(cache, front, k);
      ApplyChangeAt(CacheAfter(cache, front), changes[n], k);
      forall i | 0 <= i < |changes| && !Effect(changes[i], k).Keep? && UntouchedFrom(changes, k, i + 1)
        ensures Lookup(CacheAfter(cache, changes), k) == Outcome(Effect(changes[i], k), None)
      {
        if i < n {
          assert Effect(changes[n], k).Keep?;
          assert front[i] == changes[i];
          assert UntouchedFrom(front, k, i + 1) by {
            forall j | i + 1 <= j < |front| ensures Effect(front[j], k).Keep? {
              assert front[j] == changes[j];
            }
          }
        }
      }
      if UntouchedFrom(changes, k, 0) {
        assert Effect(changes[n], k).Keep?;
        assert UntouchedFrom(front, k, 0) by {
          forall j | 0 <= j < |front| ensures Effect(front[j], k).Keep? {
            assert front[j] == changes[j];
          }
        }
      }
    }
  }

  /** One more change at the end is applied to the cache the rest leaves. */
  lemma CacheAfterSnoc(cache: map<string, BrowseResult>, changes: seq<Change>, change: Change)
    ensures CacheAfter(cache, changes + [change]) == ApplyChange(CacheAfter(cache, changes), change)
  {
    assert (changes + [change])[..|changes|] == changes;
  }

  /** One more change at the end adds its callbacks after the rest's. */
  lemma BatchCallbacksSnoc(changes: seq<Change>, change: Change)
    ensures BatchCallbacks(changes + [change]) == BatchCallbacks(changes) + ChangeCallbacks(change)
  {
    assert (changes + [change])[..|changes|] == changes;
  }

  /** Two batches in a row leave the cache their concatenation leaves. */
  lemma {:induction false} CacheAfterCompose(cache: map<string, BrowseResult>, first: seq<Change>, second: seq<Change>)
    ensures CacheAfter(cache, first + second) == CacheAfter(CacheAfter(cache, first), second)
    decreases |second|
  {
    if second == [] {
      assert first + second == first;
    } else {
      var front, last := second[..|second| - 1], second[|second| - 1];
      assert second == front + [last];
      assert first + second == (first + front) + [last];
      CacheAfterSnoc(cache, first + front, last);
      CacheAfterCompose(cache, first, front);
      CacheAfterSnoc(CacheAfter(cache, first), front, last);
    }
  }

  /** Two batches in a row make the callbacks their concatenation makes. */
  lemma {:induction false} BatchCallbacksCompose(first: seq<Change>, second: seq<Change>)
    ensures BatchCallbacks(first + second) == BatchCallbacks(first) + BatchCallbacks(second)
    decreases |second|
  {
    if second == [] {
      assert first + second == first;
    } else {
      var front, last := second[..|second| - 1], second[|second| - 1];
      assert second == front + [last];
      assert first + second == (first + front) + [last];
      BatchCallbacksSnoc(first + front, last);
      BatchCallbacksCompose(first, front);
      BatchCallbacksSnoc(front, last);
      AppendAssociates(BatchCallbacks(first), BatchCallbacks(front), ChangeCallbacks(last));
    }
  }

  lemma AppendAssociates<T>(a: seq<T>, b: seq<T>, c: seq<T>)
    ensures (a + b) + c == a + (b + c)
  {
  }

  /** Two batches in a row act as their concatenation. */
  lemma BatchesCompose(cache: map<string, BrowseResult>, first: seq<Change>, second: seq<Change>)
    ensures CacheAfter(cache, first + second) == CacheAfter(CacheAfter(cache, first), second)
    ensures BatchCallbacks(first + second) == BatchCallbacks(first) + BatchCallbacks(second)
  {
    CacheAfterCompose(cache, first, second);
    BatchCallbacksCompose(first, second);
  }

  /** An identical change, or one whose endpoints are not services, does nothing. */
  lemma IgnoredChange(cache: map<string, BrowseResult>, change: Change)
    requires match change
      case Added(r) => !r.endpoint.Service?
      case Removed(r) => !r.endpoint.Service?
      case Changed(o, n) => !o.endpoint.Service? && !n.endpoint.Service?
      case Identical => true
    ensures ApplyChange(cache, change) == cache && ChangeCallbacks(change) == []
  {
  }

  /**
   * A change between two services, whether their keys differ or it is a
   * metadata update of one service, updates the cache exactly as a removal
   * followed by an addition, but reports only the new service as found: no
   * removal is reported for the old one.
   */
  lemma ChangedReportsOnlyNew(cache: map<string, BrowseResult>, o: BrowseResult, n: BrowseResult)
    ensures CacheAfter(cache, [Changed(o, n)]) == CacheAfter(cache, [Removed(o), Added(n)])
    ensures BatchCallbacks([Changed(o, n)]) == ChangeCallbacks(Added(n))
    ensures BatchCallbacks([Removed(o), Added(n)]) == ChangeCallbacks(Removed(o)) + ChangeCallbacks(Added(n))
    ensures o.endpoint.Service? && n.endpoint.Service? ==>
      && BatchCallbacks([Changed(o, n)]) == [ServiceFound(n.endpoint.name, n.endpoint.serviceType, n.endpoint.domain)]
      && BatchCallbacks([Removed(o), Added(n)]) ==
        [ServiceRemoved(o.endpoint.name), ServiceFound(n.endpoint.name, n.endpoint.serviceType, n.endpoint.domain)]
  {
    assert [Changed(o, n)][..0] == [];
    assert [Removed(o), Added(n)][..1] == [Removed(o)];
    assert [Removed(o)][..0] == [];
    assert CacheAfter(cache, [Changed(o, n)]) == ApplyChange(cache, Changed(o, n));
    assert CacheAfter(cache, [Removed(o), Added(n)]) == ApplyChange(ApplyChange(cache, Removed(o)), Added(n));
  }

  /** Every found callback of a batch names a service endpoint that the batch adds or changes to. */
  lemma {:induction false} FoundComesFromBatch(changes: seq<Change>, i: nat)
    requires i < |BatchCallbacks(changes)| && BatchCallbacks(changes)[i].ServiceFound?
    ensures var f := BatchCallbacks(changes)[i];
      exists j :: 0 <= j < |changes| &&
        ((changes[j].Added? && changes[j].result.endpoint == Service(f.name, f.serviceType, f.domain))
         || (changes[j].Changed? && changes[j].newResult.endpoint == Service(f.name, f.serviceType, f.domain)))
    decreases |changes|
  {
    var n := |changes| - 1;
    var front := changes[..n];
    if i < |BatchCallbacks(front)| {
      FoundComesFromBatch(front, i);
      var f := BatchCallbacks(changes)[i];
      assert BatchCallbacks(front)[i] == f;
      var j :| 0 <= j < |front| &&
        ((front[j].Added? && front[j].result.endpoint == Service(f.name, f.serviceType, f.domain))
         || (front[j].Changed? && front[j].newResult.endpoint == Service(f.name, f.serviceType, f.domain)));
      assert changes[j] == front[j];
    } else {
      assert BatchCallbacks(changes)[i] == ChangeCallbacks(changes[n])[i - |BatchCallbacks(front)|];
    }
  }

  // ---------------------------------------------------------------------
  // Browser state handling
  // ---------------------------------------------------------------------

  /** The callbacks the browser's stateUpdateHandler makes for a state. */
  function BrowserStateCallbacks(state: State): (cs: seq<Callback>)
    ensures |cs| <= 2
    ensures forall c :: c in cs ==> c.Error? || c.PermissionChanged?
  {
    match state
    case Failed(e) =>
      if IsPermissionError(e) then [PermissionChanged(Denied), Error(PermissionDeniedMessage)]
      else [Error(BrowserFailed(e))]
    case Ready => [PermissionChanged(Granted)]
    case Cancelled => []
    case Waiting(e) =>
      if IsPermissionError(e) then [PermissionChanged(Denied), Error(PermissionDeniedMessage)] else []
    case OtherState => []
  }

  /**
   * Whether a state arms the waiting timer, given the session's timeout:
   * only a wait with a timeout, and only one that reports nothing at once.
   */
  function ArmsWaitingTimer(state: State, timeout: Option<real>): (b: bool)
    ensures b ==> state.Waiting? && timeout.Some?
    ensures b ==> BrowserStateCallbacks(state) == []
  {
    state.Waiting? && !IsPermissionError(state.error) && timeout.Some?
  }

  /** Permission is reported denied exactly for a permission error while failed or waiting. */
  lemma DeniedExactlyOnPermissionError(state: State)
    ensures PermissionChanged(Denied) in BrowserStateCallbacks(state) <==>
      (state.Failed? || state.Waiting?) && IsPermissionError(state.error)
    ensures Error(PermissionDeniedMessage) in BrowserStateCallbacks(state) <==>
      (state.Failed? || state.Waiting?) && IsPermissionError(state.error)
  {
  }

  /** Permission is reported granted exactly when the browser is ready. */
  lemma GrantedExactlyWhenReady(state: State)
    ensures PermissionChanged(Granted) in BrowserStateCallbacks(state) <==> state.Ready?
  {
  }

  /**
   * Ready reports only granted; cancelled, other states and a wait for any
   * other reason report nothing.
   */
  lemma QuietStates(e: NWError)
    requires !IsPermissionError(e)
    ensures BrowserStateCallbacks(Ready) == [PermissionChanged(Granted)]
    ensures BrowserStateCallbacks(Cancelled) == []
    ensures BrowserStateCallbacks(OtherState) == []
    ensures BrowserStateCallbacks(Waiting(e)) == []
  {
  }

  /** A permission error while waiting is reported at once and never arms the timer. */
  lemma PermissionErrorBypassesTimer(e: NWError, timeout: Option<real>)
    requires IsPermissionError(e)
    ensures BrowserStateCallbacks(Waiting(e)) == BrowserStateCallbacks(Failed(e))
    ensures !ArmsWaitingTimer(Waiting(e), timeout)
  {
  }

  /** A failure that is not about permission changes no permission state. */
  lemma OtherFailureKeepsPermission(e: NWError)
    requires !IsPermissionError(e)
    ensures BrowserStateCallbacks(Failed(e)) == [Error(BrowserFailed(e))]
    ensures forall p :: PermissionChanged(p) !in BrowserStateCallbacks(Failed(e))
  {
  }

  // ---------------------------------------------------------------------
  // TXT records and endpoint extraction
  // ---------------------------------------------------------------------

  /** The TXT records a cached browse result yields. */
  function TxtRecords(result: BrowseResult): (d: map<string, seq<byte>>)
    ensures result.metadata.NoMetadata? ==> d == map[]
    ensures result.metadata.Bonjour? ==> d.Keys == result.metadata.txt.Keys
    ensures forall k :: k in d ==> (d[k] == [] <==> result.metadata.txt[k] == [])
  {
    match result.metadata
    case Bonjour(txt) => map k | k in txt :: Utf8(txt[k])
    case NoMetadata => map[]
  }

  /** An ASCII TXT value arrives as its own code points, one byte per character. */
  lemma AsciiTxtValue(result: BrowseResult, k: string)
    requires result.metadata.Bonjour? && k in result.metadata.txt
    requires forall i :: 0 <= i < |result.metadata.txt[k]| ==> result.metadata.txt[k][i] as int < 0x80
    ensures k in TxtRecords(result) && |TxtRecords(result)[k]| == |result.metadata.txt[k]|
    ensures forall i :: 0 <= i < |result.metadata.txt[k]| ==> TxtRecords(result)[k][i] == result.metadata.txt[k][i] as int
  {
    Utf8OfAscii(result.metadata.txt[k]);
  }

  /** extractTXTRecords: each TXT value that encodes to UTF-8, keyed as in the record. */
  method ExtractTXTRecords(result: BrowseResult) returns (dataDict: map<string, seq<byte>>)
    ensures dataDict == TxtRecords(result)
  {
    dataDict := map[];
    match result.metadata {
      case Bonjour(txt) =>
        var pending := txt.Keys;
        while pending != {}
          invariant pending <= txt.Keys
          invariant dataDict.Keys == txt.Keys - pending
          invariant forall k :: k in dataDict ==> dataDict[k] == Utf8(txt[k])
          decreases pending
        {
          var key :| key in pending;
          var data := Utf8(txt[key]);
          dataDict := dataDict[key := data];
          pending := pending - {key};
        }
      case NoMetadata =>
    }
  }

  /** extractServiceInfo: what onResolved is called with for a remote endpoint. */
  method ExtractServiceInfo(endpoint: Endpoint, name: string, txtRecords: map<string, seq<byte>>)
    returns (info: ServiceInfo)
    ensures info.name == name && info.txt == txtRecords
    ensures DescribesEndpoint(info, endpoint)
    ensures info.addresses != [] ==> info.addresses == [info.hostname]
  {
    var addresses: seq<string> := [];
    var port: int := 0;
    var hostname: string := "";
    match endpoint {
      case HostPort(host, portValue) =>
        match host {
          case Name(hostName) =>
            hostname := hostName;
          case IPv4(v4) =>
            hostname := v4;
            addresses := addresses + [v4];
          case IPv6(v6) =>
            hostname := v6;
            addresses := addresses + [v6];
        }
        port := portValue;
      case Service(serviceName, _, _) =>
        hostname := serviceName;
      case OtherEndpoint =>
    }
    info := ServiceInfo(name, addresses, port, hostname, txtRecords);
  }

  // ---------------------------------------------------------------------
  // Platform handles
  // ---------------------------------------------------------------------

  /** An NWBrowser with the settings its handlers captured. */
  class Browser {
    const serviceType: string
    const domain: string
    const waitingStateTimeout: Option<real>
    var started: bool
    var cancelled: bool

    constructor (serviceType: string, domain: string, waitingStateTimeout: Option<real>)
      ensures this.serviceType == serviceType && this.domain == domain
      ensures this.waitingStateTimeout == waitingStateTimeout
      ensures !started && !cancelled
    {
      this.serviceType, this.domain := serviceType, domain;
      this.waitingStateTimeout := waitingStateTimeout;
      started, cancelled := false, false;
    }
  }

  /** The waiting-state work item, with the error its closure captured. */
  class WaitingTimer {
    const delay: real
    const error: NWError
    var cancelled: bool
    var performed: bool

    constructor (delay: real, error: NWError)
      ensures this.delay == delay && this.error == error && !cancelled && !performed
    {
      this.delay, this.error := delay, error;
      cancelled, performed := false, false;
    }
  }

  /** An NWConnection opened by resolveService, with what its handler captured. */
  class Connection {
    const key: string
    const request: Request
    const endpoint: Endpoint
    const txtRecords: map<string, seq<byte>>
    var started: bool
    var cancelled: bool

    constructor (key: string, request: Request, endpoint: Endpoint, txtRecords: map<string, seq<byte>>)
      ensures this.key == key && this.request == request
      ensures this.endpoint == endpoint && this.txtRecords == txtRecords
      ensures !started && !cancelled
    {
      this.key, this.request := key, request;
      this.endpoint, this.txtRecords := endpoint, txtRecords;
      started, cancelled := false, false;
    }
  }

  /** The arguments startBrowsing hands on to startBrowsingInternal. */
  datatype BrowseRequest = BrowseRequest(serviceType: string, domain: string, waitingStateTimeout: Option<real>)

  // ---------------------------------------------------------------------
  // The bridge
  // ---------------------------------------------------------------------

  class NWBrowserBridge {
    var browser: Browser?
    var activeConnections: map<string, Connection>
    var discoveredResults: map<string, BrowseResult>
    var waitingStateTimer: WaitingTimer?
    var permissionTrigger: LocalNetworkPermissionTrigger?
    /** The request the trigger's completion closure will start browsing with. */
    var deferredBrowse: Option<BrowseRequest>
    /** Every callback made so far, in order. */
    var callbacks: seq<Callback>

    ghost function TriggerRepr(): set<object>
      reads this, permissionTrigger
    {
      if permissionTrigger == null then {} else permissionTrigger.Repr()
    }

    /**
     * Cached results sit under their own keys; tracked connections sit under
     * their own keys and are live; the armed timer is live; a trigger that is
     * still held is listening and has a browse request to run afterwards.
     */
    ghost predicate Valid()
      reads this, activeConnections.Values, waitingStateTimer, permissionTrigger, TriggerRepr()
    {
      && WellKeyed(discoveredResults)
      && (forall k :: k in activeConnections ==> activeConnections[k].key == k && !activeConnections[k].cancelled)
      && (waitingStateTimer != null ==> !waitingStateTimer.cancelled)
      && (permissionTrigger != null ==>
            && permissionTrigger.Valid() && permissionTrigger.listener != null
            && deferredBrowse.Some?)
    }

    /** The state stop() leaves behind. */
    ghost predicate Stopped()
      reads this
    {
      browser == null && waitingStateTimer == null && permissionTrigger == null
      && activeConnections == map[] && discoveredResults == map[]
    }

    constructor ()
      ensures Valid() && Stopped() && callbacks == [] && deferredBrowse == None
    {
      browser, waitingStateTimer, permissionTrigger := null, null, null;
      activeConnections, discoveredResults := map[], map[];
      deferredBrowse := None;
      callbacks := [];
    }

    /**
     * startBrowsing. `randomPort` and `listenerCreated` are the permission
     * trigger's port draw and whether its listener could be created.
     */
    method StartBrowsing(serviceType: string, domain: Option<string>, triggerPermissionPrompt: bool,
                         waitingStateTimeout: real, randomPort: int, listenerCreated: bool)
      requires Valid()
      requires LowestDynamicPort <= randomPort <= HighestDynamicPort
      modifies this, TriggerRepr()
      ensures Valid()
      ensures activeConnections == old(activeConnections) && discoveredResults == old(discoveredResults)
      ensures waitingStateTimer == old(waitingStateTimer)
      ensures !triggerPermissionPrompt ==> deferredBrowse == old(deferredBrowse)
      ensures triggerPermissionPrompt && old(permissionTrigger) != null ==>
        && old(permissionTrigger.listener) != null && old(permissionTrigger.listener).cancelled
        && old(permissionTrigger.timeoutWorkItem) != null && old(permissionTrigger.timeoutWorkItem).cancelled
      ensures var request := BrowseRequest(serviceType, if domain.Some? then domain.value else "local.", Some(waitingStateTimeout));
        if !triggerPermissionPrompt then
          && browser != null && fresh(browser) && StartedWith(request)
          && callbacks == old(callbacks) && permissionTrigger == old(permissionTrigger)
        else if listenerCreated then
          && browser == old(browser) && callbacks == old(callbacks)
          && permissionTrigger != null && fresh(permissionTrigger.Repr())
          && permissionTrigger.listener != null && permissionTrigger.listener.port == randomPort
          && deferredBrowse == Some(request)
        else
          && browser != null && fresh(browser) && StartedWith(request)
          && callbacks == old(callbacks) + [PermissionChanged(Denied)]
          && permissionTrigger == null
    {
      var domainToUse := if domain.Some? then domain.value else "local.";
      var request := BrowseRequest(serviceType, domainToUse, Some(waitingStateTimeout));
      if triggerPermissionPrompt {
        if permissionTrigger != null {
          permissionTrigger.Dispose();
        }
        var t := new LocalNetworkPermissionTrigger();
        permissionTrigger := t;
        deferredBrowse := Some(request);
        t.Trigger(randomPort, listenerCreated);
        if !listenerCreated {
          // the completion handler ran at once with `false`
          RunTriggerCompletion(false);
        }
      } else {
        StartBrowsingInternal(request);
      }
    }

    ghost predicate StartedWith(request: BrowseRequest)
      reads this, browser
    {
      browser != null && browser.started && !browser.cancelled
      && browser.serviceType == request.serviceType && browser.domain == request.domain
      && browser.waitingStateTimeout == request.waitingStateTimeout
    }

    /** The closure given to the trigger: report the outcome, drop the trigger, browse. */
    method RunTriggerCompletion(success: bool)
      requires Valid() || (permissionTrigger != null && deferredBrowse.Some?
                           && WellKeyed(discoveredResults)
                           && (forall k :: k in activeConnections ==> activeConnections[k].key == k && !activeConnections[k].cancelled)
                           && (waitingStateTimer != null ==> !waitingStateTimer.cancelled))
      requires deferredBrowse.Some?
      modifies this
      ensures Valid() && permissionTrigger == null
      ensures callbacks == old(callbacks) + [PermissionChanged(if success then Granted else Denied)]
      ensures browser != null && fresh(browser) && StartedWith(old(deferredBrowse).value)
      ensures activeConnections == old(activeConnections) && discoveredResults == old(discoveredResults)
      ensures waitingStateTimer == old(waitingStateTimer)
    {
      callbacks := callbacks + [PermissionChanged(if success then Granted else Denied)];
      permissionTrigger := null;
      StartBrowsingInternal(deferredBrowse.value);
    }

    /** startBrowsingInternal: create and start the browser. */
    method StartBrowsingInternal(request: BrowseRequest)
      requires Valid()
      modifies this
      ensures Valid()
      ensures browser != null && fresh(browser) && StartedWith(request)
      ensures callbacks == old(callbacks) && permissionTrigger == old(permissionTrigger)
      ensures activeConnections == old(activeConnections) && discoveredResults == old(discoveredResults)
      ensures waitingStateTimer == old(waitingStateTimer) && deferredBrowse == old(deferredBrowse)
    {
      var b := new Browser(request.serviceType, request.domain, request.waitingStateTimeout);
      browser := b;
      b.started := true;
    }

    /** The permission listener's state handler, forwarded while the trigger is held. */
    method OnPermissionListenerState(state: State)
      requires Valid()
      modifies this, TriggerRepr()
      ensures Valid()
      ensures activeConnections == old(activeConnections) && discoveredResults == old(discoveredResults)
      ensures waitingStateTimer == old(waitingStateTimer)
      ensures old(permissionTrigger) == null ==> unchanged(this)
      ensures old(permissionTrigger) != null && ListenerOutcome(state).Some? ==>
        && permissionTrigger == null
        && callbacks == old(callbacks) + [PermissionChanged(if ListenerOutcome(state).value then Granted else Denied)]
        && browser != null && fresh(browser) && StartedWith(old(deferredBrowse).value)
        && old(permissionTrigger.listener) != null && old(permissionTrigger.listener).cancelled
        && old(permissionTrigger.timeoutWorkItem) != null && old(permissionTrigger.timeoutWorkItem).cancelled
      ensures old(permissionTrigger) != null && ListenerOutcome(state).None? ==>
        && permissionTrigger == old(permissionTrigger) && callbacks == old(callbacks) && browser == old(browser)
        && deferredBrowse == old(deferredBrowse)
        && permissionTrigger.listener == old(permissionTrigger.listener)
        && permissionTrigger.timeoutWorkItem == old(permissionTrigger.timeoutWorkItem)
    {
      if permissionTrigger == null {
        return;
      }
      var done := permissionTrigger.OnListenerState(state);
      if done.Some? {
        RunTriggerCompletion(done.value);
      }
    }

    /** The permission trigger's timeout firing while the trigger is held. */
    method OnPermissionTimeout()
      requires Valid()
      modifies this, TriggerRepr()
      ensures Valid()
      ensures activeConnections == old(activeConnections) && discoveredResults == old(discoveredResults)
      ensures waitingStateTimer == old(waitingStateTimer)
      ensures old(permissionTrigger) == null ==> unchanged(this)
      ensures old(permissionTrigger) != null ==>
        && permissionTrigger == null
        && callbacks == old(callbacks) + [PermissionChanged(Denied)]
        && browser != null && fresh(browser) && StartedWith(old(deferredBrowse).value)
        && old(permissionTrigger.listener) != null && old(permissionTrigger.listener).cancelled
        && old(permissionTrigger.timeoutWorkItem) != null && old(permissionTrigger.timeoutWorkItem).cancelled
    {
      if permissionTrigger == null {
        return;
      }
      var done := permissionTrigger.OnTimeout();
      RunTriggerCompletion(false);
    }

    /** Cancel the armed waiting-state work item, if any, and forget it. */
    method CancelWaitingTimer()
      requires Valid()
      modifies this, waitingStateTimer
      ensures Valid() && waitingStateTimer == null
      ensures old(waitingStateTimer) != null ==> old(waitingStateTimer).cancelled
      ensures browser == old(browser) && permissionTrigger == old(permissionTrigger) && deferredBrowse == old(deferredBrowse)
      ensures activeConnections == old(activeConnections) && discoveredResults == old(discoveredResults)
      ensures callbacks == old(callbacks)
      ensures old(waitingStateTimer) == null ==> unchanged(this)
    {
      if waitingStateTimer != null {
        waitingStateTimer.cancelled := true;
      }
      waitingStateTimer := null;
    }

    /** The browser's stateUpdateHandler; `b` is the browser whose handler runs. */
    method OnBrowserState(b: Browser, state: State)
      requires Valid()
      modifies this, waitingStateTimer
      ensures Valid()
      ensures old(waitingStateTimer) != null ==> old(waitingStateTimer).cancelled
      ensures callbacks == old(callbacks) + BrowserStateCallbacks(state)
      ensures (waitingStateTimer != null) == ArmsWaitingTimer(state, b.waitingStateTimeout)
      ensures waitingStateTimer != null ==>
        && fresh(waitingStateTimer)
        && waitingStateTimer.delay == b.waitingStateTimeout.value
        && waitingStateTimer.error == state.error
      ensures browser == old(browser) && permissionTrigger == old(permissionTrigger) && deferredBrowse == old(deferredBrowse)
      ensures activeConnections == old(activeConnections) && discoveredResults == old(discoveredResults)
    {
      CancelWaitingTimer();
      match state {
        case Failed(e) =>
          if IsPermissionError(e) {
            callbacks := callbacks + [PermissionChanged(Denied)];
            callbacks := callbacks + [Error(PermissionDeniedMessage)];
          } else {
            callbacks := callbacks + [Error(BrowserFailed(e))];
          }
        case Ready =>
          callbacks := callbacks + [PermissionChanged(Granted)];
        case Cancelled =>
        case Waiting(e) =>
          if IsPermissionError(e) {
            callbacks := callbacks + [PermissionChanged(Denied)];
            callbacks := callbacks + [Error(PermissionDeniedMessage)];
          } else if b.waitingStateTimeout.Some? {
            var timer := new WaitingTimer(b.waitingStateTimeout.value, e);
            waitingStateTimer := timer;
          }
        case OtherState =>
      }
    }

    /** A waiting-state work item running: it reports only while a browser is held. */
    method OnWaitingTimer(t: WaitingTimer)
      requires Valid()
      modifies this, t
      ensures Valid()
      ensures t.cancelled == old(t.cancelled)
      ensures t.performed == (old(t.performed) || !t.cancelled)
      ensures callbacks == old(callbacks) +
        (if !old(t.cancelled) && !old(t.performed) && browser != null
         then [Error(BrowserWaitingTimeout(t.error))] else [])
      ensures browser == old(browser) && waitingStateTimer == old(waitingStateTimer)
      ensures activeConnections == old(activeConnections) && discoveredResults == old(discoveredResults)
      ensures permissionTrigger == old(permissionTrigger) && deferredBrowse == old(deferredBrowse)
    {
      if t.cancelled || t.performed {
        return;
      }
      t.performed := true;
      if browser == null {
        return;
      }
      callbacks := callbacks + [Error(BrowserWaitingTimeout(t.error))];
    }

    /** The browser's browseResultsChangedHandler: the batch in the order listed. */
    method OnBrowseResultsChanged(changes: seq<Change>)
      requires Valid()
      modifies this
      ensures Valid()
      ensures discoveredResults == CacheAfter(old(discoveredResults), changes)
      ensures callbacks == old(callbacks) + BatchCallbacks(changes)
      ensures browser == old(browser) && waitingStateTimer == old(waitingStateTimer)
      ensures activeConnections == old(activeConnections) && permissionTrigger == old(permissionTrigger)
      ensures deferredBrowse == old(deferredBrowse)
    {
      var results := discoveredResults;
      var made: seq<Callback> := [];
      var i := 0;
      while i < |changes|
        invariant 0 <= i <= |changes|
        invariant results == CacheAfter(discoveredResults, changes[..i])
        invariant made == BatchCallbacks(changes[..i])
        modifies {}
      {
        var step;
        results, step := HandleChange(results, changes[i]);
        made := made + step;
        assert changes[..i + 1][..i] == changes[..i];
        i := i + 1;
      }
      assert changes[..i] == changes;
      discoveredResults := results;
      callbacks := callbacks + made;
    }

    /**
     * One entry of a batch, as the body of the handler's loop treats it: the
     * cache it leaves and the callbacks it makes.
     */
    static method HandleChange(results: map<string, BrowseResult>, change: Change)
      returns (after: map<string, BrowseResult>, made: seq<Callback>)
      ensures after == ApplyChange(results, change)
      ensures made == ChangeCallbacks(change)
    {
      after, made := results, [];
      match change {
        case Added(result) =>
          if result.endpoint.Service? {
            var key := Key(result.endpoint.name, result.endpoint.serviceType, result.endpoint.domain);
            after := after[key := result];
            made := made + [ServiceFound(result.endpoint.name, result.endpoint.serviceType, result.endpoint.domain)];
          }
        case Removed(result) =>
          if result.endpoint.Service? {
            var key := Key(result.endpoint.name, result.endpoint.serviceType, result.endpoint.domain);
            after := after - {key};
            made := made + [ServiceRemoved(result.endpoint.name)];
          }
        case Changed(oldResult, newResult) =>
          if oldResult.endpoint.Service? {
            var oldKey := Key(oldResult.endpoint.name, oldResult.endpoint.serviceType, oldResult.endpoint.domain);
            after := after - {oldKey};
          }
          if newResult.endpoint.Service? {
            var key := Key(newResult.endpoint.name, newResult.endpoint.serviceType, newResult.endpoint.domain);
            after := after[key := newResult];
            made := made + [ServiceFound(newResult.endpoint.name, newResult.endpoint.serviceType, newResult.endpoint.domain)];
          }
        case Identical =>
      }
    }

    /** Dispose of the permission trigger, if one is held, and forget it. */
    method ReleaseTrigger()
      requires Valid()
      modifies this, TriggerRepr()
      ensures Valid() && permissionTrigger == null
      ensures old(permissionTrigger) != null ==>
        old(permissionTrigger.listener) != null && old(permissionTrigger.listener).cancelled
      ensures old(permissionTrigger) != null ==>
        old(permissionTrigger.timeoutWorkItem) != null && old(permissionTrigger.timeoutWorkItem).cancelled
      ensures browser == old(browser) && waitingStateTimer == old(waitingStateTimer) && deferredBrowse == old(deferredBrowse)
      ensures activeConnections == old(activeConnections) && discoveredResults == old(discoveredResults)
      ensures callbacks == old(callbacks)
      ensures old(permissionTrigger) == null ==> unchanged(this)
    {
      if permissionTrigger != null {
        permissionTrigger.Dispose();
      }
      permissionTrigger := null;
    }

    /** stop(): cancel the timer, drop the trigger, cancel the browser and every connection, clear both tables. */
    method Stop()
      requires Valid()
      modifies this, browser, waitingStateTimer, activeConnections.Values, TriggerRepr()
      ensures Valid() && Stopped()
      ensures old(browser) != null ==> old(browser).cancelled
      ensures old(waitingStateTimer) != null ==> old(waitingStateTimer).cancelled
      ensures forall c :: c in old(activeConnections.Values) ==> c.cancelled
      ensures old(permissionTrigger) != null ==>
        old(permissionTrigger.listener) != null && old(permissionTrigger.listener).cancelled
      ensures old(permissionTrigger) != null ==>
        old(permissionTrigger.timeoutWorkItem) != null && old(permissionTrigger.timeoutWorkItem).cancelled
      ensures callbacks == old(callbacks)
      ensures old(Stopped()) ==> unchanged(this)
    {
      CancelWaitingTimer();
      ReleaseTrigger();

      if browser != null {
        browser.cancelled := true;
      }
      browser := null;

      CancelAll(activeConnections);
      activeConnections := map[];

      discoveredResults := map[];
    }

    /**
     * resolveService: use the cached endpoint and its TXT records when the key
     * is cached, otherwise a service endpoint built from the strings and no
     * TXT records; track the new connection under the key.
     */
    method ResolveService(name: string, serviceType: string, domain: string) returns (c: Connection)
      requires Valid()
      modifies this
      ensures Valid() && fresh(c) && c.started && !c.cancelled
      ensures var key := Key(name, serviceType, domain);
        && c.key == key && c.request == Request(name, serviceType, domain)
        && c.endpoint == (if key in old(discoveredResults) then old(discoveredResults)[key].endpoint
                          else Service(name, serviceType, domain))
        && c.txtRecords == (if key in old(discoveredResults) then TxtRecords(old(discoveredResults)[key]) else map[])
        && activeConnections == old(activeConnections)[key := c]
        && EndpointKey(c.endpoint) == Some(key)
      ensures discoveredResults == old(discoveredResults) && callbacks == old(callbacks)
      ensures browser == old(browser) && waitingStateTimer == old(waitingStateTimer)
      ensures permissionTrigger == old(permissionTrigger) && deferredBrowse == old(deferredBrowse)
    {
      var connectionKey := Key(name, serviceType, domain);
      var txtRecords: map<string, seq<byte>> := map[];
      var endpoint: Endpoint;
      if connectionKey in discoveredResults {
        var result := discoveredResults[connectionKey];
        txtRecords := ExtractTXTRecords(result);
        endpoint := result.endpoint;
      } else {
        endpoint := Service(name, serviceType, domain);
      }
      c := new Connection(connectionKey, Request(name, serviceType, domain), endpoint, txtRecords);
      activeConnections := activeConnections[connectionKey := c];
      c.started := true;
    }

    /**
     * A resolve connection's stateUpdateHandler. `remote` is the path's
     * remote endpoint when one is known. Ready and failed cancel the
     * connection and remove its key from the table, whichever connection the
     * key tracks now.
     */
    method OnConnectionState(c: Connection, state: State, remote: Option<Endpoint>)
      requires Valid()
      modifies this, c
      ensures Valid()
      ensures state.Ready? || state.Failed? ==> c.cancelled && activeConnections == old(activeConnections) - {c.key}
      ensures !(state.Ready? || state.Failed?) ==> c.cancelled == old(c.cancelled) && activeConnections == old(activeConnections)
      ensures state.Ready? && remote.None? ==> callbacks == old(callbacks) + [Error(NoEndpointInformation)]
      ensures state.Ready? && remote.Some? ==>
        && |callbacks| == |old(callbacks)| + 1 && callbacks[..|old(callbacks)|] == old(callbacks)
        && callbacks[|old(callbacks)|].ServiceResolved?
        && callbacks[|old(callbacks)|].request == c.request
        && callbacks[|old(callbacks)|].info.name == c.request.name
        && callbacks[|old(callbacks)|].info.txt == c.txtRecords
        && DescribesEndpoint(callbacks[|old(callbacks)|].info, remote.value)
      ensures state.Failed? ==> callbacks == old(callbacks) + [Error(ResolutionFailed(state.error))]
      ensures state.Waiting? ==> callbacks == old(callbacks) + [Error(ResolutionWaiting(state.error))]
      ensures state.Cancelled? || state.OtherState? ==> callbacks == old(callbacks)
      ensures discoveredResults == old(discoveredResults) && browser == old(browser)
      ensures waitingStateTimer == old(waitingStateTimer) && permissionTrigger == old(permissionTrigger)
      ensures deferredBrowse == old(deferredBrowse)
    {
      match state {
        case Ready =>
          if remote.Some? {
            var info := ExtractServiceInfo(remote.value, c.request.name, c.txtRecords);
            callbacks := callbacks + [ServiceResolved(c.request, info)];
          } else {
            callbacks := callbacks + [Error(NoEndpointInformation)];
          }
          c.cancelled := true;
          activeConnections := activeConnections - {c.key};
        case Failed(e) =>
          callbacks := callbacks + [Error(ResolutionFailed(e))];
          c.cancelled := true;
          activeConnections := activeConnections - {c.key};
        case Waiting(e) =>
          callbacks := callbacks + [Error(ResolutionWaiting(e))];
        case Cancelled =>
        case OtherState =>
      }
    }
  }

  /** The loop in stop() that cancels every tracked connection. */
  method CancelAll(connections: map<string, Connection>)
    modifies connections.Values
    ensures forall c :: c in connections.Values ==> c.cancelled
  {
    var pending := connections.Keys;
    while pending != {}
      invariant pending <= connections.Keys
      invariant forall k :: k in connections && k !in pending ==> connections[k].cancelled
      decreases pending
    {
      var key :| key in pending;
      connections[key].cancelled := true;
      pending := pending - {key};
    }
  }

  /**
   * Once stopped, a waiting-state work item never reports, and a second
   * stop changes nothing.
   */
  method StopSilencesTimer(bridge: NWBrowserBridge, t: WaitingTimer)
    requires bridge.Valid()
    modifies bridge, bridge.browser, bridge.waitingStateTimer, bridge.activeConnections.Values, bridge.TriggerRepr(), t
    ensures bridge.Stopped() && bridge.callbacks == old(bridge.callbacks)
  {
    bridge.Stop();
    bridge.OnWaitingTimer(t);
    bridge.Stop();
  }

  /**
   * Two resolves of one key: the second connection replaces the first in the
   * table, and when the first finishes it removes the key, so the second is
   * no longer tracked and stop() leaves it running.
   */
  method OverwrittenConnection(bridge: NWBrowserBridge, name: string, serviceType: string, domain: string)
    returns (second: Connection)
    requires bridge.Valid()
    modifies bridge, bridge.browser, bridge.waitingStateTimer, bridge.activeConnections.Values, bridge.TriggerRepr()
    ensures bridge.Stopped()
    ensures second.started && !second.cancelled
  {
    var first := bridge.ResolveService(name, serviceType, domain);
    second := bridge.ResolveService(name, serviceType, domain);
    assert bridge.activeConnections[first.key] == second;
    bridge.OnConnectionState(first, Failed(OtherError("")), None);
    assert second !in bridge.activeConnections.Values && second !in bridge.TriggerRepr();
    bridge.Stop();
  }

  /**
   * A prompted start, a batch of results from the browser already running and
   * then the trigger's timeout: the batch is reported first, then the denial,
   * and the browser started is the one the prompted request asked for.
   */
  method PromptedBrowseAfterBatch(bridge: NWBrowserBridge, serviceType: string, domain: string,
                                  port: int, changes: seq<Change>)
    requires bridge.Valid()
    requires LowestDynamicPort <= port <= HighestDynamicPort
    modifies bridge, bridge.TriggerRepr()
    ensures bridge.Valid() && bridge.permissionTrigger == null
    ensures bridge.StartedWith(BrowseRequest(serviceType, domain, Some(5.0)))
    ensures bridge.callbacks == old(bridge.callbacks) + BatchCallbacks(changes) + [PermissionChanged(Denied)]
  {
    bridge.StartBrowsing(serviceType, Some(domain), true, 5.0, port, true);
    bridge.OnBrowseResultsChanged(changes);
    bridge.OnPermissionTimeout();
  }
}
