/**
 * LocalNetworkPermissionTrigger: opens a throw-away UDP listener so that the
 * operating system shows its local-network permission prompt, and reports
 * once whether access looks granted. The listener and the timeout work item
 * are handles with a cancellation flag; the completion handler is recorded
 * by the values it is called with.
 */
module PermissionTrigger {
  import opened Network

  const LowestDynamicPort: int := 49152
  const HighestDynamicPort: int := 65535

  /** isListenerPermissionError: EPERM, or a DNS-SD "no auth" / "policy denied" code. */
  function IsListenerPermissionError(e: NWError): (b: bool)
    ensures b <==> e == Posix(EPERM) || e == Dns(DnsNoAuth) || e == Dns(DnsPolicyDenied)
  {
    match e
    case Posix(code) => code == EPERM
    case Dns(code) => code == DnsNoAuth || code == DnsPolicyDenied
    case OtherError(_) => false
  }

  /** The value a listener state completes the trigger with, if any. */
  function ListenerOutcome(state: State): (r: Option<bool>)
    ensures state.Ready? ==> r == Some(true)
    ensures r.Some? ==> state.Ready? || state.Failed? || state.Waiting?
    ensures state.Failed? ==> r.Some?
  {
    match state
    case Ready => Some(true)
    case Failed(e) => Some(!IsListenerPermissionError(e))
    case Waiting(e) => if IsListenerPermissionError(e) then Some(false) else None
    case Cancelled => None
    case OtherState => None
  }

  /** Only a ready listener or a failure that is not about permission counts as granted. */
  lemma ListenerOutcomeGranted(state: State)
    ensures ListenerOutcome(state) == Some(true) <==>
      state.Ready? || (state.Failed? && !IsListenerPermissionError(state.error))
  {
  }

  /** A permission error, whether the listener failed or is waiting, means denied. */
  lemma ListenerOutcomeDenied(state: State)
    ensures ListenerOutcome(state) == Some(false) <==>
      (state.Failed? || state.Waiting?) && IsListenerPermissionError(state.error)
  {
  }

  /** Waiting for any other reason, cancellation and other states leave the trigger pending. */
  lemma ListenerOutcomePending(state: State)
    ensures ListenerOutcome(state).None? <==>
      state.Cancelled? || state.OtherState? || (state.Waiting? && !IsListenerPermissionError(state.error))
  {
  }

  /** An NWListener handle. */
  class Listener {
    const port: uint16
    var started: bool
    var cancelled: bool

    constructor (port: uint16)
      ensures this.port == port && !started && !cancelled
    {
      this.port := port;
      started, cancelled := false, false;
    }
  }

  /** A DispatchWorkItem scheduled after `delay` seconds. */
  class WorkItem {
    const delay: real
    var cancelled: bool

    constructor (delay: real)
      ensures this.delay == delay && !cancelled
    {
      this.delay := delay;
      cancelled := false;
    }
  }

  class LocalNetworkPermissionTrigger {
    var listener: Listener?
    var timeoutWorkItem: WorkItem?
    var hasCompleted: bool
    /** The values the completion handler has been called with, in order. */
    var completions: seq<bool>
    const triggerTimeout: real

    ghost function Repr(): set<object>
      reads this
    {
      {this} + (if listener != null then {listener} else {})
        + (if timeoutWorkItem != null then {timeoutWorkItem} else {})
    }

    /**
     * The completion handler runs at most once. While the listener is up,
     * it and the timeout are live and nothing has been reported; after
     * completion both are gone.
     */
    ghost predicate Valid()
      reads this, listener, timeoutWorkItem
    {
      && |completions| <= 1
      && triggerTimeout == 5.0
      && (listener != null <==> timeoutWorkItem != null)
      && (hasCompleted ==> |completions| == 1 && listener == null)
      && (listener != null ==> !hasCompleted && completions == [] && listener.started && !listener.cancelled)
      && (timeoutWorkItem != null ==> !timeoutWorkItem.cancelled && timeoutWorkItem.delay == triggerTimeout)
    }

    /** Ready to be triggered: nothing created, nothing reported. */
    ghost predicate Idle()
      reads this
    {
      listener == null && timeoutWorkItem == null && !hasCompleted && completions == []
    }

    constructor ()
      ensures Valid() && Idle()
    {
      listener, timeoutWorkItem := null, null;
      hasCompleted := false;
      completions := [];
      triggerTimeout := 5.0;
    }

    /**
     * trigger(completion:). `randomPort` is the draw from 49152...65535 and
     * `listenerCreated` is false when the NWListener initializer throws.
     */
    method Trigger(randomPort: int, listenerCreated: bool)
      requires Valid() && Idle()
      requires LowestDynamicPort <= randomPort <= HighestDynamicPort
      modifies this
      ensures Valid() && !hasCompleted
      ensures !listenerCreated ==> listener == null && timeoutWorkItem == null && completions == [false]
      ensures listenerCreated ==>
        && listener != null && fresh(listener) && listener.port == randomPort
        && timeoutWorkItem != null && fresh(timeoutWorkItem)
        && completions == []
    {
      if !listenerCreated {
        completions := completions + [false];
        return;
      }
      listener := new Listener(randomPort);
      var timeout := new WorkItem(triggerTimeout);
      timeoutWorkItem := timeout;
      listener.started := true;
    }

    /** complete(success:completion:): the single-shot guard. */
    method Complete(success: bool)
      requires Valid() && (listener != null || hasCompleted)
      modifies this, listener, timeoutWorkItem
      ensures Valid() && hasCompleted
      ensures listener == null && timeoutWorkItem == null
      ensures old(hasCompleted) ==> completions == old(completions)
      ensures !old(hasCompleted) ==> completions == old(completions) + [success]
      ensures old(listener) != null ==> old(listener).cancelled
      ensures old(timeoutWorkItem) != null ==> old(timeoutWorkItem).cancelled
    {
      if hasCompleted {
        return;
      }
      hasCompleted := true;
      if timeoutWorkItem != null {
        timeoutWorkItem.cancelled := true;
      }
      timeoutWorkItem := null;
      if listener != null {
        listener.cancelled := true;
      }
      listener := null;
      completions := completions + [success];
    }

    /**
     * The listener's stateUpdateHandler. The platform calls it only for a
     * listener that Trigger created. `done` is the value the completion
     * handler was called with by this update.
     */
    method OnListenerState(state: State) returns (done: Option<bool>)
      requires Valid() && (listener != null || hasCompleted)
      modifies this, listener, timeoutWorkItem
      ensures Valid()
      ensures done == (if old(hasCompleted) then None else ListenerOutcome(state))
      ensures done.None? ==>
        && completions == old(completions) && hasCompleted == old(hasCompleted)
        && listener == old(listener) && timeoutWorkItem == old(timeoutWorkItem)
      ensures done.Some? ==>
        && hasCompleted && completions == [done.value]
        && listener == null && timeoutWorkItem == null
        && old(listener).cancelled && old(timeoutWorkItem).cancelled
    {
      done := None;
      if hasCompleted {
        return;
      }
      match state {
        case Ready =>
          Complete(true);
          done := Some(true);
        case Failed(e) =>
          var isPermissionError := IsListenerPermissionError(e);
          Complete(!isPermissionError);
          done := Some(!isPermissionError);
        case Cancelled =>
        case Waiting(e) =>
          if IsListenerPermissionError(e) {
            Complete(false);
            done := Some(false);
          }
        case OtherState =>
      }
    }

    /** The timeout work item firing after triggerTimeout seconds. */
    method OnTimeout() returns (done: Option<bool>)
      requires Valid() && (timeoutWorkItem != null || hasCompleted)
      modifies this, listener, timeoutWorkItem
      ensures Valid() && hasCompleted
      ensures done == (if old(hasCompleted) then None else Some(false))
      ensures done.None? ==> completions == old(completions)
      ensures done.Some? ==> completions == [false] && old(listener).cancelled && old(timeoutWorkItem).cancelled
    {
      done := None;
      if hasCompleted {
        return;
      }
      Complete(false);
      done := Some(false);
    }

    /** deinit: whatever is still live is cancelled. */
    method Dispose()
      modifies listener, timeoutWorkItem
      ensures listener != null ==> listener.cancelled
      ensures timeoutWorkItem != null ==> timeoutWorkItem.cancelled
    {
      if timeoutWorkItem != null {
        timeoutWorkItem.cancelled := true;
      }
      if listener != null {
        listener.cancelled := true;
      }
    }
  }

  /**
   * Whatever sequence of listener updates and timeouts the platform delivers
   * after Trigger, the completion handler is called at most once.
   */
  method CompletesAtMostOnce(t: LocalNetworkPermissionTrigger, port: int, created: bool, updates: seq<Option<State>>)
    requires t.Valid() && t.Idle()
    requires LowestDynamicPort <= port <= HighestDynamicPort
    modifies t
    ensures |t.completions| <= 1
    ensures !created ==> t.completions == [false]
  {
    t.Trigger(port, created);
    if !created {
      return;
    }
    var i := 0;
    while i < |updates|
      invariant 0 <= i <= |updates|
      invariant t.Valid() && (t.listener != null || t.hasCompleted)
      invariant t.listener == null || fresh(t.listener)
      invariant t.timeoutWorkItem == null || fresh(t.timeoutWorkItem)
    {
      match updates[i] {
        case Some(state) =>
          var _ := t.OnListenerState(state);
        case None =>
          var _ := t.OnTimeout();
      }
      i := i + 1;
    }
  }
}
