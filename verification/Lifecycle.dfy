/** The application-wide lifecycle: the transactional start of all resources with its rollback, the
    begin of shutdown, and the order in which the owner finalizes it. */
module Lifecycle {
  import opened Registrations
  import opened WaitRegistrations
  import opened ShutdownWait

  datatype InfrastructureState = Uninitialized | Initialized | Started | StartRollback | ShuttingDown | ShutdownComplete

  /** What has been done to one topology resource: woken and joined say that its termination was requested
      and that it was joined, with whatever success; the rollback goes on either way. */
  datatype Resource = Resource(started: bool, woken: bool, joined: bool, destroyed: bool)

  /** A resource starts at most once, and not when it is destroyed; whoever comes second fails on it. */
  predicate Startable(r: Resource) { !r.started && !r.destroyed }

  /** Which starts succeed; works says which ones the platform lets succeed. */
  function Goes(resources: seq<Resource>, works: seq<bool>): seq<bool>
    requires |works| == |resources|
  {
    seq(|works|, i requires 0 <= i < |works| => works[i] && Startable(resources[i]))
  }

  datatype StartResult = StartSucceeded | AlreadyStarted | NotInitialized | StartFailed

  datatype BeginResult = Accepted | AlreadyShuttingDown | AlreadyCompleted | NotStarted

  /** The lowest resource whose start fails, or their number when none does. */
  function FirstFailure(works: seq<bool>): (k: nat)
    ensures k <= |works|
    ensures k < |works| ==> !works[k]
    ensures forall j :: 0 <= j < k ==> works[j]
  {
    if works == [] || !works[0] then 0 else 1 + FirstFailure(works[1..])
  }

  lemma {:induction false} FirstFailureIs(works: seq<bool>, k: nat)
    requires k <= |works| && (k < |works| ==> !works[k]) && forall j :: 0 <= j < k ==> works[j]
    ensures FirstFailure(works) == k
  {
  }

  predicate CanActivate(state: InfrastructureState) { state.Started? }

  predicate ShouldTerminate(state: InfrastructureState) {
    state.StartRollback? || state.ShuttingDown? || state.ShutdownComplete?
  }

  /** The state is read and published in separate critical sections.  Between them others may publish
      whatever they like, which the methods show as an arbitrary state; what they publish replaces it. */
  class InfrastructureLifecycle {
    var state: InfrastructureState

    constructor ()
      ensures state == Uninitialized
    {
      state := Uninitialized;
    }

    method CommitInitialization() returns (succeeded: bool)
      modifies this
      ensures succeeded <==> old(state).Uninitialized?
      ensures state == if succeeded then Initialized else old(state)
    {
      if !state.Uninitialized? { return false; }
      state := *;
      state := Initialized;
      return true;
    }

    /** Starts the resources in order, in whatever condition an earlier caller has left them.  Either all of
        them run, or exactly those that this call has started are woken and joined, and every one is
        destroyed, those of another caller included. */
    method Start(resources: array<Resource>, works: seq<bool>) returns (result: StartResult)
      requires |works| == resources.Length
      modifies this, resources
      ensures result == StartOutcome(old(state), Goes(old(resources[..]), works))
      ensures result == AlreadyStarted <==> old(state).Started?
      ensures result == NotInitialized <==> !old(state).Started? && !old(state).Initialized?
      ensures result == StartSucceeded <==> (old(state).Initialized? &&
        forall i :: 0 <= i < resources.Length ==> works[i] && Startable(old(resources[i])))
      ensures result.AlreadyStarted? || result.NotInitialized? ==> state == old(state)
      ensures result.AlreadyStarted? || result.NotInitialized? ==> resources[..] == old(resources[..])
      ensures result.StartSucceeded? ==> state == Started
      ensures result.StartSucceeded? ==> forall i :: 0 <= i < resources.Length ==>
        Startable(old(resources[i])) && resources[i] == old(resources[i]).(started := true)
      ensures result.StartFailed? ==> state == StartRollback
      ensures result.StartFailed? ==> forall i :: 0 <= i < resources.Length ==>
        resources[i] == RolledBack(old(resources[i]), i < FirstFailure(Goes(old(resources[..]), works)))
      ensures result.StartFailed? ==> forall i :: 0 <= i < resources.Length ==>
        && resources[i].destroyed
        && (if i < FirstFailure(Goes(old(resources[..]), works))
            then Startable(old(resources[i])) && resources[i].started && resources[i].woken && resources[i].joined
            else resources[i] == old(resources[i]).(destroyed := true))
    {
      if state.Started? { return AlreadyStarted; }
      if !state.Initialized? { return NotInitialized; }
      var startedCount := 0;
      while startedCount < resources.Length && works[startedCount] && Startable(resources[startedCount])
        invariant startedCount <= resources.Length
        invariant forall i :: 0 <= i < startedCount ==>
          works[i] && Startable(old(resources[i])) && resources[i] == old(resources[i]).(started := true)
        invariant forall i :: startedCount <= i < resources.Length ==> resources[i] == old(resources[i])
      {
        resources[startedCount] := resources[startedCount].(started := true);
        startedCount := startedCount + 1;
      }
      FirstFailureIs(Goes(old(resources[..]), works), startedCount);
      state := *;
      if startedCount == resources.Length {
        state := Started;
        return StartSucceeded;
      }
      state := StartRollback;
      forall i | 0 <= i < startedCount { resources[i] := resources[i].(woken := true); }
      forall i | 0 <= i < startedCount { resources[i] := resources[i].(joined := true); }
      forall i | 0 <= i < resources.Length { resources[i] := resources[i].(destroyed := true); }
      return StartFailed;
    }

    method BeginShutdown() returns (result: BeginResult)
      modifies this
      ensures result == Accepted <==> old(state).Started?
      ensures result == AlreadyShuttingDown <==> old(state).ShuttingDown?
      ensures result == AlreadyCompleted <==> old(state).ShutdownComplete?
      ensures state == if result.Accepted? then ShuttingDown else old(state)
    {
      if state.ShutdownComplete? { return AlreadyCompleted; }
      if state.ShuttingDown? { return AlreadyShuttingDown; }
      if !state.Started? { return NotStarted; }
      state := *;
      state := ShuttingDown;
      return Accepted;
    }

    method PublishShutdownComplete()
      modifies this
      ensures state == ShutdownComplete
    {
      state := ShutdownComplete;
    }
  }

  function StartOutcome(state: InfrastructureState, goes: seq<bool>): StartResult {
    if state.Started? then AlreadyStarted else if !state.Initialized? then NotInitialized
    else if FirstFailure(goes) == |goes| then StartSucceeded else StartFailed
  }

  /** What the rollback leaves of a resource; begun says that the failed call had started it. */
  function RolledBack(r: Resource, begun: bool): Resource {
    if begun then Resource(true, true, true, true) else r.(destroyed := true)
  }

  /** Of two callers one at most starts all resources, if there are any: what the first one has touched the
      second one cannot start. */
  lemma {:induction false} SecondStartFails(resources: seq<Resource>, works: seq<bool>, k: nat)
    requires |works| == |resources| && k < |resources| && !Startable(resources[k])
    ensures StartOutcome(Initialized, Goes(resources, works)) == StartFailed
  {
    assert !Goes(resources, works)[k];
  }

  // ---------------------------------------------------------------- the owner

  datatype FinalizationResult = FinalizationCompleted | NotShuttingDown | ExecutionNotQuiescent | FinalizationFailed

  class StaticTopologyOwner {
    const lifecycle: InfrastructureLifecycle
    const shutdownWait: ShutdownWaitRuntime

    constructor (lifecycle: InfrastructureLifecycle, shutdownWait: ShutdownWaitRuntime)
      ensures this.lifecycle == lifecycle && this.shutdownWait == shutdownWait
    {
      this.lifecycle, this.shutdownWait := lifecycle, shutdownWait;
    }

    /** quiescent and finalized are the answers of the owned resources.  Completion is published before
        anybody is woken for it, and Completed is returned exactly when every wake worked. */
    method FinalizeShutdown(quiescent: bool, finalized: bool) returns (result: FinalizationResult)
      modifies lifecycle, shutdownWait.router
      ensures result.NotShuttingDown? <==> !old(lifecycle.state).ShuttingDown?
      ensures result.ExecutionNotQuiescent? <==> old(lifecycle.state).ShuttingDown? && !quiescent
      ensures result.FinalizationCompleted? ==> old(lifecycle.state).ShuttingDown? && quiescent && finalized
      ensures result.FinalizationCompleted? ==>
        && Waiting(shutdownWait.waiters.slots[..], ()) <= shutdownWait.router.signals.latched
        && shutdownWait.router.signals.failed == old(shutdownWait.router.signals).failed
      ensures result.FinalizationFailed? && finalized ==> shutdownWait.router.signals.failed != {}
      ensures lifecycle.state == (if old(lifecycle.state).ShuttingDown? && quiescent && finalized
                                  then ShutdownComplete else old(lifecycle.state))
      ensures lifecycle.state != old(lifecycle.state) ==>
        Reached(shutdownWait.router.signals, Waiting(shutdownWait.waiters.slots[..], ()))
      ensures lifecycle.state == old(lifecycle.state) ==>
        shutdownWait.router.signals == old(shutdownWait.router.signals)
    {
      if !lifecycle.state.ShuttingDown? { return NotShuttingDown; }
      if !quiescent { return ExecutionNotQuiescent; }
      if !finalized { return FinalizationFailed; }
      lifecycle.PublishShutdownComplete();
      var woken := shutdownWait.WakeCompleted();
      return if woken then FinalizationCompleted else FinalizationFailed;
    }
  }
}
