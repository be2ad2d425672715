# mDNS service discovery on iOS — a Dafny model

This project models the iOS half of a Kotlin Multiplatform library for
Bonjour/mDNS service discovery. It covers:

- the two Swift `NWBrowserBridge` classes that wrap Apple's Network
  framework. The basic bridge is the one the build links. The extended
  bridge adds a results cache, a waiting-state timer, permission-state
  reporting and a `LocalNetworkPermissionTrigger` that opens a throw-away
  UDP listener to force the local-network permission prompt;
- the Kotlin service-type helpers `qualified`, `localQualified` and
  `stripLocal`;
- the Kotlin `discoverServices(type)` flow for iOS. It builds
  `Discovered`, `Removed` and `Resolved` events from the bridge's
  callbacks and copies TXT data with `NSData.toByteArray`.

Files and modules:

- `network.dfy` (`Network`) holds the platform vocabulary: endpoints,
  errors, states, browse changes, the messages the bridges report, and
  the callbacks they make. It also holds the "name.type.domain" key and a
  UTF-8 encoder for TXT values.
- `type_strings.dfy` (`TypeStrings`) holds the three string helpers.
- `permission_trigger.dfy` (`PermissionTrigger`) holds the permission
  trigger as a class.
- `extended_bridge.dfy` (`ExtendedBridge`) holds the extended bridge. Its
  specification functions are the cache after a batch of changes and the
  callbacks a batch or a browser state makes. Its class's handler methods
  are proved against those functions.
- `basic_bridge.dfy` (`BasicBridge`) holds the basic bridge. Its handler
  for browse changes is proved against the extended bridge's callback
  function, because both bridges report the same callbacks for a batch.
- `discovery.dfy` (`Discovery`) holds the event builders, `toByteArray`,
  and the flow as a class over the basic bridge.

How the platform is modelled:

- Each platform object is a small class. `NWBrowser`, `NWConnection`,
  `NWListener` and `DispatchWorkItem` become handles with `started`,
  `cancelled` and `performed` flags.
- Each closure the Swift code installs becomes a handler method, such as
  `OnBrowserState`, `OnBrowseResultsChanged`, `OnConnectionState` and
  `OnTimeout`. The platform calls these in any order.
- Every callback a bridge makes is appended to its `callbacks` sequence,
  so the contracts say exactly which callbacks each event causes.

## Model

| member | source | states |
|---|---|---|
| Network.KeyParts | shared/src/swift/nativeBridge/NWBrowserBridge.swift:131 | a key is the name, a dot, the type, a dot and the domain: its length is theirs plus two, it starts with the name and a dot, and it ends with the domain |
| Network.EndpointKey | shared/src/swift/nativeBridge/NWBrowserBridge.swift:130-131 | only a service endpoint has a key, and that key is "name.type.domain" |
| Network.KeyCollision | shared/src/swift/nativeBridge/NWBrowserBridge.swift:131 | two different (name, type, domain) triples can produce the same key string |
| Network.DescribesEndpoint | shared/src/swift/nativeBridge/NWBrowserBridge.swift:278-306 | host, addresses and port as extractServiceInfo reports them: at most one address, and that one is the hostname; an endpoint that is not host-and-port gives port 0 and no addresses |
| Network.EncodeChar | shared/src/swift/nativeBridge/NWBrowserBridge.swift:260 | a character encodes to 1 to 4 UTF-8 bytes; it is one byte exactly for ASCII, and every byte after the first is a continuation byte |
| Network.Utf8 | shared/src/swift/nativeBridge/NWBrowserBridge.swift:260 | a string's encoding is between one and four times its length, and is empty exactly when the string is |
| Network.Utf8OfAscii | shared/src/swift/nativeBridge/NWBrowserBridge.swift:260 | an ASCII string encodes to its own code points, one byte each |
| TypeStrings.RemoveSuffix | shared/src/commonMain/kotlin/eu/aaltra/kmp/mdns/shared/Utils.kt:10 | the suffix is split off when the string ends with it; otherwise the string is unchanged |
| TypeStrings.Qualified | shared/src/commonMain/kotlin/eu/aaltra/kmp/mdns/shared/Utils.kt:3-4 | the result ends with "." and extends the input by at most one character |
| TypeStrings.LocalQualified | shared/src/commonMain/kotlin/eu/aaltra/kmp/mdns/shared/Utils.kt:6-7 | the result ends with ".local." and extends the input |
| TypeStrings.StripLocal | shared/src/commonMain/kotlin/eu/aaltra/kmp/mdns/shared/Utils.kt:9-10 | the result is a prefix of the input; it is the input itself when the input ends in neither ".local." nor ".local" |
| TypeStrings.QualifiedKeepsQualified | shared/src/commonMain/kotlin/eu/aaltra/kmp/mdns/shared/Utils.kt:3-4 | qualified leaves a string unchanged exactly when the string already ends with "." |
| TypeStrings.QualifiedAppendsDot | shared/src/commonMain/kotlin/eu/aaltra/kmp/mdns/shared/Utils.kt:3-4 | a string without a trailing dot gets exactly one dot appended |
| TypeStrings.QualifiedIdempotent | shared/src/commonMain/kotlin/eu/aaltra/kmp/mdns/shared/Utils.kt:3-4 | qualifying twice is the same as qualifying once |
| TypeStrings.LocalQualifiedCases | shared/src/commonMain/kotlin/eu/aaltra/kmp/mdns/shared/Utils.kt:6-7 | a string ending in ".local." is kept; any other string is qualified and then gets "local." appended |
| TypeStrings.LocalQualifiedIdempotent | shared/src/commonMain/kotlin/eu/aaltra/kmp/mdns/shared/Utils.kt:6-7 | applying localQualified twice is the same as applying it once |
| TypeStrings.LocalQualifiedOfBareLocal | shared/src/commonMain/kotlin/eu/aaltra/kmp/mdns/shared/Utils.kt:6-7 | a bare ".local" suffix is not recognised: "_http._tcp.local" becomes "_http._tcp.local.local." |
| TypeStrings.StripLocalRemoves | shared/src/commonMain/kotlin/eu/aaltra/kmp/mdns/shared/Utils.kt:9-10 | what is removed, by the input's ending: ".local." (possibly after ".local"), or a bare ".local" |
| TypeStrings.StripLocalExamples | shared/src/commonMain/kotlin/eu/aaltra/kmp/mdns/shared/Utils.kt:9-10 | "_http._tcp.local.", "_http._tcp.local" and "_http._tcp" all strip to "_http._tcp" |
| PermissionTrigger.IsListenerPermissionError | shared/src/swift/nativeBridge/NWBrowserBridge.swift:418-429 | a listener error is a permission error exactly when it is EPERM or DNS code -65555 or -65570 |
| PermissionTrigger.ListenerOutcome | shared/src/swift/nativeBridge/NWBrowserBridge.swift:367-390 | ready always decides granted; a failure always decides something; only ready, failed and waiting states decide anything |
| PermissionTrigger.ListenerOutcomeGranted | shared/src/swift/nativeBridge/NWBrowserBridge.swift:370-377 | a listener state reports granted exactly when the listener is ready or fails for a reason other than permission |
| PermissionTrigger.ListenerOutcomeDenied | shared/src/swift/nativeBridge/NWBrowserBridge.swift:374-385 | a listener state reports denied exactly when the listener fails or waits with a permission error |
| PermissionTrigger.ListenerOutcomePending | shared/src/swift/nativeBridge/NWBrowserBridge.swift:378-389 | cancelled, other states, and waiting for a reason other than permission all leave the trigger pending |
| PermissionTrigger.LocalNetworkPermissionTrigger.constructor | shared/src/swift/nativeBridge/NWBrowserBridge.swift:339-349 | a new trigger has no listener, no timeout, has not completed, and has a 5-second timeout |
| PermissionTrigger.LocalNetworkPermissionTrigger.Trigger | shared/src/swift/nativeBridge/NWBrowserBridge.swift:353-403 | if the listener cannot be created, completion runs at once with false; otherwise a started listener on the drawn port and a live timeout exist, and nothing is reported yet |
| PermissionTrigger.LocalNetworkPermissionTrigger.Complete | shared/src/swift/nativeBridge/NWBrowserBridge.swift:405-416 | the first call cancels the timeout and the listener, drops both, and reports its value once; a later call changes nothing |
| PermissionTrigger.LocalNetworkPermissionTrigger.OnListenerState | shared/src/swift/nativeBridge/NWBrowserBridge.swift:367-390 | after completion nothing happens; otherwise the state's outcome, if any, is reported, and both handles are cancelled |
| PermissionTrigger.LocalNetworkPermissionTrigger.OnTimeout | shared/src/swift/nativeBridge/NWBrowserBridge.swift:393-398 | a timeout before completion reports false and cancels both handles; after completion it does nothing |
| PermissionTrigger.LocalNetworkPermissionTrigger.Dispose | shared/src/swift/nativeBridge/NWBrowserBridge.swift:431-434 | deinit cancels the timeout and the listener if they are still held |
| PermissionTrigger.CompletesAtMostOnce | shared/src/swift/nativeBridge/NWBrowserBridge.swift:353-416 | whatever listener updates and timeouts follow a trigger, the completion handler runs at most once; it runs with false when no listener could be created |
| ExtendedBridge.IsPermissionError | shared/src/swift/nativeBridge/NWBrowserBridge.swift:316-327 | a browser error is a permission error exactly when it is EPERM or DNS code -65555 or -65570 |
| ExtendedBridge.ListenerTestAgrees | shared/src/swift/nativeBridge/NWBrowserBridge.swift:316-327 | the bridge's permission test and the trigger's test agree on every error |
| ExtendedBridge.ChangeCallbacks | shared/src/swift/nativeBridge/NWBrowserBridge.swift:128-157 | one change makes at most one callback |
| ExtendedBridge.ChangeCallbacksMade | shared/src/swift/nativeBridge/NWBrowserBridge.swift:128-157 | a change makes a callback exactly when the result it adds or removes, or the result it changes to, is a service |
| ExtendedBridge.CacheAfter | shared/src/swift/nativeBridge/NWBrowserBridge.swift:126-159 | a batch keeps every cached result under its own key |
| ExtendedBridge.BatchCallbacks | shared/src/swift/nativeBridge/NWBrowserBridge.swift:126-159 | a batch makes at most one callback per change |
| ExtendedBridge.ApplyChange | shared/src/swift/nativeBridge/NWBrowserBridge.swift:128-157 | one change keeps every cached result under its own key |
| ExtendedBridge.ApplyChangeAt | shared/src/swift/nativeBridge/NWBrowserBridge.swift:128-157 | one change sets, drops or keeps each key's cache entry, according to that key's effect |
| ExtendedBridge.LastChangeDecides | shared/src/swift/nativeBridge/NWBrowserBridge.swift:126-159 | after a batch, a key's entry is decided by the last change that touches it; a key no change touches keeps its old entry |
| ExtendedBridge.CacheAfterCompose | shared/src/swift/nativeBridge/NWBrowserBridge.swift:126-159 | two batches in a row leave the cache their concatenation leaves |
| ExtendedBridge.BatchCallbacksCompose | shared/src/swift/nativeBridge/NWBrowserBridge.swift:126-159 | two batches in a row make the callbacks their concatenation makes, in order |
| ExtendedBridge.BatchesCompose | shared/src/swift/nativeBridge/NWBrowserBridge.swift:126-159 | two batches in a row give the same cache and the same callbacks as their concatenation |
| ExtendedBridge.IgnoredChange | shared/src/swift/nativeBridge/NWBrowserBridge.swift:152-156 | an identical change, or a change whose endpoints are not services, leaves the cache unchanged and reports nothing |
| ExtendedBridge.ChangedReportsOnlyNew | shared/src/swift/nativeBridge/NWBrowserBridge.swift:141-151 | for any two results, a change updates the cache as a removal of the old followed by an addition of the new, but reports only what the addition reports; for two services, that is the new service found and no removal |
| ExtendedBridge.FoundComesFromBatch | shared/src/swift/nativeBridge/NWBrowserBridge.swift:126-159 | every found callback of a batch names a service that the batch adds or changes to |
| ExtendedBridge.BrowserStateCallbacks | shared/src/swift/nativeBridge/NWBrowserBridge.swift:89-123 | a browser state makes at most two callbacks, and only errors and permission changes |
| ExtendedBridge.ArmsWaitingTimer | shared/src/swift/nativeBridge/NWBrowserBridge.swift:104-120 | only a wait with a timeout arms the timer, and such a wait reports nothing at once |
| ExtendedBridge.DeniedExactlyOnPermissionError | shared/src/swift/nativeBridge/NWBrowserBridge.swift:89-110 | denied permission and the permission message are reported exactly when the browser fails or waits with a permission error |
| ExtendedBridge.GrantedExactlyWhenReady | shared/src/swift/nativeBridge/NWBrowserBridge.swift:98-100 | granted permission is reported exactly when the browser becomes ready |
| ExtendedBridge.QuietStates | shared/src/swift/nativeBridge/NWBrowserBridge.swift:98-123 | without a permission error, ready reports only granted, and cancelled, waiting and other states report nothing |
| ExtendedBridge.PermissionErrorBypassesTimer | shared/src/swift/nativeBridge/NWBrowserBridge.swift:104-120 | waiting with a permission error reports the same callbacks as failing with it, and never arms the timer |
| ExtendedBridge.OtherFailureKeepsPermission | shared/src/swift/nativeBridge/NWBrowserBridge.swift:90-97 | a failure for any other reason reports only "browser failed" and changes no permission state |
| ExtendedBridge.TxtRecords | shared/src/swift/nativeBridge/NWBrowserBridge.swift:254-267 | a result without Bonjour metadata yields no records; otherwise every TXT key is kept, and a value encodes to empty data exactly when it is empty |
| ExtendedBridge.AsciiTxtValue | shared/src/swift/nativeBridge/NWBrowserBridge.swift:259-262 | an ASCII TXT value arrives under its key as its own code points, one byte per character |
| ExtendedBridge.ExtractTXTRecords | shared/src/swift/nativeBridge/NWBrowserBridge.swift:254-267 | the loop builds exactly the TxtRecords dictionary of the result |
| ExtendedBridge.ExtractServiceInfo | shared/src/swift/nativeBridge/NWBrowserBridge.swift:269-309 | the reported host, addresses and port describe the remote endpoint; the name and TXT records are passed through; any reported address is the hostname |
| ExtendedBridge.NWBrowserBridge.constructor | shared/src/swift/nativeBridge/NWBrowserBridge.swift:16-26 | a new bridge is stopped and has made no callbacks |
| ExtendedBridge.NWBrowserBridge.StartBrowsing | shared/src/swift/nativeBridge/NWBrowserBridge.swift:28-66 | without a prompt, browsing starts at once for the type in the domain, which defaults to "local."; with a prompt the trigger runs first, and a listener that cannot be created reports denied and browsing starts; a trigger already held is disposed, so its listener and timeout are cancelled; without a prompt the pending deferred browse is kept; the timer and both tables are unchanged |
| ExtendedBridge.NWBrowserBridge.RunTriggerCompletion | shared/src/swift/nativeBridge/NWBrowserBridge.swift:54-62 | reports granted or denied, drops the trigger, and starts the deferred browse |
| ExtendedBridge.NWBrowserBridge.StartBrowsingInternal | shared/src/swift/nativeBridge/NWBrowserBridge.swift:68-82 | a fresh, started browser for the request's type, domain and waiting timeout; nothing else changes |
| ExtendedBridge.NWBrowserBridge.OnPermissionListenerState | shared/src/swift/nativeBridge/NWBrowserBridge.swift:367-390 | a listener state that decides permission cancels the trigger's listener and timeout, reports the decision, drops the trigger and starts the deferred browse; any other state keeps the trigger, its listener and timeout, the deferred browse, the callbacks and the browser; with no trigger held nothing changes; the connections, the cache and the waiting timer are never touched |
| ExtendedBridge.NWBrowserBridge.OnPermissionTimeout | shared/src/swift/nativeBridge/NWBrowserBridge.swift:393-398 | a trigger timeout cancels the trigger's listener and timeout, reports denied, drops the trigger and starts the deferred browse; with no trigger held nothing changes; the connections, the cache and the waiting timer are never touched |
| ExtendedBridge.NWBrowserBridge.CancelWaitingTimer | shared/src/swift/nativeBridge/NWBrowserBridge.swift:86-87 | the armed waiting timer, if any, is cancelled and dropped; nothing else changes |
| ExtendedBridge.NWBrowserBridge.OnBrowserState | shared/src/swift/nativeBridge/NWBrowserBridge.swift:84-124 | the pending timer is cancelled; the state's callbacks are reported; a new timer is armed exactly for a non-permission wait with a timeout, with that delay and error; the browser, the trigger, the deferred browse and both tables are unchanged |
| ExtendedBridge.NWBrowserBridge.OnWaitingTimer | shared/src/swift/nativeBridge/NWBrowserBridge.swift:113-116 | a timer that is neither cancelled nor already run reports a waiting timeout, but only while a browser is held; no other field of the bridge changes, the deferred browse included |
| ExtendedBridge.NWBrowserBridge.OnBrowseResultsChanged | shared/src/swift/nativeBridge/NWBrowserBridge.swift:126-159 | the cache becomes CacheAfter of the batch, and the callbacks are extended by BatchCallbacks of the batch; the browser, the timer, the connections, the trigger and the deferred browse are unchanged |
| ExtendedBridge.NWBrowserBridge.HandleChange | shared/src/swift/nativeBridge/NWBrowserBridge.swift:128-157 | one entry of the loop leaves the cache ApplyChange gives and makes the callbacks ChangeCallbacks gives |
| ExtendedBridge.NWBrowserBridge.ReleaseTrigger | shared/src/swift/nativeBridge/NWBrowserBridge.swift:168 | dropping the trigger runs its deinit: a held trigger's listener and timeout are cancelled and the trigger is dropped; nothing else changes |
| ExtendedBridge.NWBrowserBridge.Stop | shared/src/swift/nativeBridge/NWBrowserBridge.swift:164-181 | the timer, the trigger's listener and timeout, the browser and every connection are cancelled; both tables are cleared; nothing is reported; a second stop changes nothing |
| ExtendedBridge.NWBrowserBridge.ResolveService | shared/src/swift/nativeBridge/NWBrowserBridge.swift:183-212 | the connection uses the cached endpoint and its TXT records when the key is cached, otherwise a service endpoint from the strings; it is tracked under the key, replacing any earlier connection; the cache, the callbacks, the browser, the timer, the trigger and the deferred browse are unchanged |
| ExtendedBridge.NWBrowserBridge.OnConnectionState | shared/src/swift/nativeBridge/NWBrowserBridge.swift:214-247 | ready reports the resolved endpoint, or "no endpoint information"; failed and waiting report errors; ready and failed cancel the connection and untrack its key; other states leave the table as it is; the cache, the browser, the timer, the trigger and the deferred browse are unchanged |
| ExtendedBridge.CancelAll | shared/src/swift/nativeBridge/NWBrowserBridge.swift:174-176 | every connection in the table is cancelled |
| ExtendedBridge.StopSilencesTimer | shared/src/swift/nativeBridge/NWBrowserBridge.swift:113-116 | after stop, a waiting timer reports nothing, and a second stop changes nothing |
| ExtendedBridge.OverwrittenConnection | shared/src/swift/nativeBridge/NWBrowserBridge.swift:212-239 | of two resolves of one key, the first to finish untracks the key, so after stop the second connection is still started and not cancelled |
| ExtendedBridge.PromptedBrowseAfterBatch | shared/src/swift/nativeBridge/NWBrowserBridge.swift:52-62 | a prompted start, a batch of results and then the trigger timeout report the batch's callbacks and then denied, and leave browsing started with the prompted type, domain and waiting timeout |
| BasicBridge.FailureMessage | shared/src/nativeInterop/swift/NWBrowserBridge.swift:34-42 | the permission message is used exactly for EPERM, the DNS message exactly for DNS errors, carrying their code, and "browser failed" with the error for every other error |
| BasicBridge.BrowserStateCallbacks | shared/src/nativeInterop/swift/NWBrowserBridge.swift:32-54 | a browser state only ever reports errors, and a failure reports exactly one error, with the failure's message |
| BasicBridge.StateReports | shared/src/nativeInterop/swift/NWBrowserBridge.swift:32-54 | failed and waiting each report exactly one error, and the other states report nothing |
| BasicBridge.DnsCodesAreNotPermissionErrors | shared/src/nativeInterop/swift/NWBrowserBridge.swift:38-39 | DNS codes -65555 and -65570 are reported as plain DNS errors here, though the extended bridge treats them as permission denials |
| BasicBridge.ResolveTXTRecords | shared/src/nativeInterop/swift/NWBrowserBridge.swift:192-202 | the basic bridge never finds TXT records |
| BasicBridge.ExtractServiceInfo | shared/src/nativeInterop/swift/NWBrowserBridge.swift:148-190 | the reported host, addresses and port describe the remote endpoint, with the requested name and no TXT records |
| BasicBridge.NWBrowserBridge.constructor | shared/src/nativeInterop/swift/NWBrowserBridge.swift:7-14 | a new bridge has no browser and no connections, and has made no callbacks |
| BasicBridge.NWBrowserBridge.StartBrowsing | shared/src/nativeInterop/swift/NWBrowserBridge.swift:16-30 | a fresh, started browser for the type, in the given domain or "local." |
| BasicBridge.NWBrowserBridge.OnBrowserState | shared/src/nativeInterop/swift/NWBrowserBridge.swift:32-54 | the callbacks are extended by BrowserStateCallbacks of the state |
| BasicBridge.NWBrowserBridge.OnBrowseResultsChanged | shared/src/nativeInterop/swift/NWBrowserBridge.swift:56-79 | the callbacks are extended by the extended bridge's BatchCallbacks of the batch, taken in order |
| BasicBridge.NWBrowserBridge.HandleChange | shared/src/nativeInterop/swift/NWBrowserBridge.swift:58-77 | one entry of the loop makes the callbacks the extended bridge's ChangeCallbacks gives |
| BasicBridge.NWBrowserBridge.Stop | shared/src/nativeInterop/swift/NWBrowserBridge.swift:84-93 | the browser and every tracked connection are cancelled, the table is cleared, and a second stop changes nothing |
| BasicBridge.NWBrowserBridge.ResolveService | shared/src/nativeInterop/swift/NWBrowserBridge.swift:95-109 | a service endpoint built from the strings, tracked under "name.type.domain", replacing any earlier connection |
| BasicBridge.NWBrowserBridge.OnConnectionState | shared/src/nativeInterop/swift/NWBrowserBridge.swift:111-143 | ready reports the resolved endpoint with no TXT records, or "no endpoint information"; failed and waiting report errors; ready and failed cancel the connection and untrack its key |
| BasicBridge.CancelAll | shared/src/nativeInterop/swift/NWBrowserBridge.swift:89-91 | every connection in the table is cancelled |
| Discovery.BrowseType | shared/src/iosMain/kotlin/eu/aaltra/kmp/mdns/shared/Discovery.ios.kt:55 | the browsed type ends with "." and, without that dot, is a prefix of the caller's type |
| Discovery.BrowseTypeExamples | shared/src/iosMain/kotlin/eu/aaltra/kmp/mdns/shared/Discovery.ios.kt:55 | "_http._tcp", "_http._tcp.", "_http._tcp.local." and "_http._tcp.local" all browse "_http._tcp." |
| Discovery.ToInt32 | shared/src/iosMain/kotlin/eu/aaltra/kmp/mdns/shared/Discovery.ios.kt:40 | Long.toInt gives a signed 32-bit value congruent to the input modulo 2^32 |
| Discovery.ToInt32KeepsPorts | shared/src/iosMain/kotlin/eu/aaltra/kmp/mdns/shared/Discovery.ios.kt:40 | every port number survives the conversion unchanged |
| Discovery.BytesOf | shared/src/iosMain/kotlin/eu/aaltra/kmp/mdns/shared/Discovery.ios.kt:107-115 | empty data becomes null; any other data becomes exactly its bytes |
| Discovery.ToByteArray | shared/src/iosMain/kotlin/eu/aaltra/kmp/mdns/shared/Discovery.ios.kt:107-115 | the copy loop returns null for empty data, and otherwise a fresh array holding exactly the bytes |
| Discovery.NonNull | shared/src/iosMain/kotlin/eu/aaltra/kmp/mdns/shared/Discovery.ios.kt:26 | the result holds exactly the non-null entries and is no longer than the input |
| Discovery.NonNullAppend | shared/src/iosMain/kotlin/eu/aaltra/kmp/mdns/shared/Discovery.ios.kt:26 | order is kept: filtering a concatenation concatenates the filtered parts |
| Discovery.NonNullOfPresent | shared/src/iosMain/kotlin/eu/aaltra/kmp/mdns/shared/Discovery.ios.kt:26 | a list with no nulls comes through unchanged |
| Discovery.TxtMap | shared/src/iosMain/kotlin/eu/aaltra/kmp/mdns/shared/Discovery.ios.kt:27-31 | exactly the String keys with NSData values are kept, each value converted by toByteArray |
| Discovery.TxtRoundTrip | shared/src/iosMain/kotlin/eu/aaltra/kmp/mdns/shared/Discovery.ios.kt:27-31 | a bridge TXT dictionary keeps all its keys, and each value arrives as its bytes, or null when it is empty |
| Discovery.DiscoveredEvent | shared/src/iosMain/kotlin/eu/aaltra/kmp/mdns/shared/Discovery.ios.kt:57-77 | a Discovered event with no addresses, host, port or TXT; missing name, domain and type default to "", "local." and the browsed type; its resolve capability re-resolves that identity |
| Discovery.RemovedEvent | shared/src/iosMain/kotlin/eu/aaltra/kmp/mdns/shared/Discovery.ios.kt:79-94 | a Removed event holding the name, or "", and the caller's type as given, with no other data |
| Discovery.ResolvedEvent | shared/src/iosMain/kotlin/eu/aaltra/kmp/mdns/shared/Discovery.ios.kt:23-46 | the name and host default to the requested name and ""; the type is the requested one; the port is cut to 32 bits; the addresses are the non-null entries, in order; the TXT data is converted; the capability re-resolves the same request |
| Discovery.RemovedTypeDiffersFromDiscovered | shared/src/iosMain/kotlin/eu/aaltra/kmp/mdns/shared/Discovery.ios.kt:62-89 | for the bare type "_http._tcp", the Removed event's type differs from the one a Discovered event defaults to |
| Discovery.EventsFor | shared/src/iosMain/kotlin/eu/aaltra/kmp/mdns/shared/Discovery.ios.kt:33-94 | each found, removed and resolved callback sends exactly one event, of the matching kind, and a resolved event re-resolves the callback's request; every other callback sends none |
| Discovery.Events | shared/src/iosMain/kotlin/eu/aaltra/kmp/mdns/shared/Discovery.ios.kt:15-99 | a run of callbacks sends at most one event per callback |
| Discovery.EventsAppend | shared/src/iosMain/kotlin/eu/aaltra/kmp/mdns/shared/Discovery.ios.kt:15-99 | the events for a run of callbacks are the events for its parts, in order |
| Discovery.ErrorsNeverSent | shared/src/iosMain/kotlin/eu/aaltra/kmp/mdns/shared/Discovery.ios.kt:48-50 | error callbacks from browsing or resolving only produce log lines, never events |
| Discovery.ResolvedCarriesInfo | shared/src/iosMain/kotlin/eu/aaltra/kmp/mdns/shared/Discovery.ios.kt:23-46 | a resolved callback becomes an event with the bridge's name, host, addresses and port, the requested type, and the same TXT keys |
| Discovery.DiscoveryFlow.constructor | shared/src/iosMain/kotlin/eu/aaltra/kmp/mdns/shared/Discovery.ios.kt:15-56 | a fresh basic bridge browses for the normalised type in "local."; there are no events yet |
| Discovery.DiscoveryFlow.Deliver | shared/src/iosMain/kotlin/eu/aaltra/kmp/mdns/shared/Discovery.ios.kt:33-94 | the callbacks not yet delivered are translated to events in order and sent; after close, nothing is sent |
| Discovery.DiscoveryFlow.Resolve | shared/src/iosMain/kotlin/eu/aaltra/kmp/mdns/shared/Discovery.ios.kt:18-22 | the capability calls resolveService with the captured name, type and domain |
| Discovery.DiscoveryFlow.Close | shared/src/iosMain/kotlin/eu/aaltra/kmp/mdns/shared/Discovery.ios.kt:101-103 | the events of callbacks made before the close are sent first; then the bridge stops, cancelling the browser and every connection, and nothing more is sent |
| Discovery.PrinterFound | shared/src/iosMain/kotlin/eu/aaltra/kmp/mdns/shared/Discovery.ios.kt:57-77 | a found printer becomes a Discovered event with its identity and empty data |
| Discovery.PrinterResolved | shared/src/iosMain/kotlin/eu/aaltra/kmp/mdns/shared/Discovery.ios.kt:23-46 | a printer resolved at 10.0.0.5:631 becomes a Resolved event with that address, host and port |
| Discovery.DiscoverPrinter | shared/src/iosMain/kotlin/eu/aaltra/kmp/mdns/shared/Discovery.ios.kt:54-78 | browsing "_http._tcp" and a printer added send exactly one Discovered event for it |
| Discovery.ResolvePrinter | shared/src/iosMain/kotlin/eu/aaltra/kmp/mdns/shared/Discovery.ios.kt:18-46 | resolving the printer to 10.0.0.5:631 sends exactly one more event, a Resolved event with that address, host and port |
| Discovery.PrinterScenario | shared/src/iosMain/kotlin/eu/aaltra/kmp/mdns/shared/Discovery.ios.kt:15-104 | browsing "_http._tcp", finding a printer, resolving it and closing the stream gives exactly a Discovered event and then a Resolved event with address 10.0.0.5 and port 631 |

## Left out

- Dispatch queues and concurrency are not modelled. The handlers run one at a time, in whatever order the caller drives them, and the `serviceQueue` is not modelled.
- Time is not modelled. The 5-second trigger timeout and the waiting-state timeout are recorded as delays on their work items, and a timer firing is a method call.
- `[weak self]` captures are not modelled: the bridge is always alive while its handlers run. Releasing the extended bridge's permission trigger is modelled as its deinit, `Dispose`. The bridges' own deinit calls `stop()`, which is `Stop`, so it has no member of its own.
- Error descriptions are not modelled. `localizedDescription` and `debugDescription` are left out: errors stay as values inside the messages, and IPv4 and IPv6 addresses are their printed strings.
- `NSLog` output and `NWParameters` settings (`includePeerToPeer`, UDP) are not modelled.
- The trigger's random port draw is a parameter in the range 49152 to 65535. The `?? 49152` fallback is not modelled, because every port in that range is valid, so the fallback is never reached.
- The listener's `NWListener` initializer throwing is modelled by the `listenerCreated` parameter.
- ExtendedBridge.NWBrowserBridge.ResolveService runs the `serviceQueue.async` block at call time, not later.
- ExtendedBridge.NWBrowserBridge.OnBrowseResultsChanged builds the new cache and the batch's callbacks in local values and stores them once the loop ends, rather than writing the fields on each entry. No other handler runs inside the loop, so the cache and the callbacks, in order, end up the same.
- ExtendedBridge.ExtractTXTRecords never drops an entry, because UTF-8 encoding of a Swift string cannot fail. The `if let` filter therefore keeps every key.
- ExtendedBridge.NWBrowserBridge.StartBrowsing has no default arguments. Callers pass `triggerPermissionPrompt` (false by default in Swift) and `waitingStateTimeout` (5 seconds by default) explicitly, because Dafny methods have no default parameter values.
- ExtendedBridge.NWBrowserBridge.StartBrowsing always records the permission callback. A nil `onPermissionStateChanged` would only discard those callbacks.
- ExtendedBridge.NWBrowserBridge.StartBrowsingInternal replaces a held browser without cancelling it, as the Swift code does. The old handle is simply dropped.
- The extended bridge's `PermissionState` raw values (0, 1, 2) are left out, because only the case matters.
- Network.Key: the model does not claim that keys are unique per identity. Network.KeyCollision shows that they are not.
- Discovery.DiscoveryFlow.Deliver runs the Kotlin closures for the bridge's pending callbacks when it, or Close, is called, not inside each bridge handler. Close delivers the pending callbacks before it stops the bridge, so the events and their order are the same.
- Discovery.DiscoveryFlow.Deliver does not model the channel's buffer limit. A `trySend` that fails on a full buffer would drop its event, and the model does not.
- Kotlin/Objective-C bridging is not modelled. Nullable Kotlin parameters are `Option` values. Elements of an untyped list are given by their `toString()` form or null. Untyped TXT values are `ObjCValue`.
- The extended bridge is not reached from the Kotlin flow: the build links the basic bridge. Both bridges are modelled, and the flow is composed with the basic one.

## Behaviour worth knowing

The code is modelled as written. These consequences of it are proved:

- A `changed` browse entry updates the cache as a removal of the old result followed by an addition of the new one, but only the new service is reported found: there is no removal callback and no Removed event (ExtendedBridge.ChangedReportsOnlyNew).
- Removed events carry the caller's type unchanged, while Discovered events carry the platform's fully qualified type, so the two differ for a bare type such as "_http._tcp" (Discovery.RemovedTypeDiffersFromDiscovered).
- The bridges address their tables by the string "name.type.domain", and two different identities can share that string (Network.KeyCollision).
- When one key is resolved twice, the first connection to finish untracks the key, so `stop()` no longer reaches the second connection, which stays running (ExtendedBridge.OverwrittenConnection).
- The permission trigger completes with true when its listener fails for a reason other than a permission error, the same as when the listener becomes ready (PermissionTrigger.ListenerOutcomeGranted).
- The linked basic bridge has no result cache, no waiting timer, no permission reporting, and no TXT records.
