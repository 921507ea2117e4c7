/** The Dedicated Thread runtime: each section under the thread's mutex as a method, proved against
    the section functions of ThreadModel.  What the lifecycle predicates answer is a parameter. */
module ThreadRuntime {
  import opened Registrations
  import opened WaitRegistrations
  import opened ThreadModel

  datatype StartResult = Started | AlreadyRunning | ShuttingDown | ActivationFailed

  function Outcome(c: Control, woken: bool): StartResult {
    if IsActive(c) then AlreadyRunning else if woken then Started else ActivationFailed
  }

  datatype JoinEntryResult = NeverStartedYet | JoinedAtOnce | JoinRegistered(slot: nat, captured: bool) | NoJoinRoom

  datatype JoinAnswer = Joined | JoinInterrupted | JoinTimedOut

  /** How a context gets into a join of the thread. */
  function JoinEntryOf(t: Thread): JoinEntryResult {
    match t.control.state
    case NeverStarted => NeverStartedYet
    case Stopped => JoinedAtOnce
    case _ => if FirstInactive(t.joiners) < |t.joiners|
              then JoinRegistered(FirstInactive(t.joiners), t.control.phase) else NoJoinRoom
  }

  class DedicatedThreadRuntime {
    const control: DedicatedThreadControl
    const joinWaiters: RegistrationSet<bool>
    const router: ManagedContextRouter
    const contextIndex: nat

    constructor (contexts: nat, router: ManagedContextRouter, contextIndex: nat)
      ensures fresh(control) && fresh(joinWaiters.slots)
      ensures this.router == router && this.contextIndex == contextIndex
      ensures View() == Thread(FIRST_CONTROL, joinWaiters.slots[..], router.signals)
      ensures joinWaiters.slots.Length == contexts && forall k :: 0 <= k < contexts ==> joinWaiters.slots[k].Inactive?
    {
      control := new DedicatedThreadControl();
      joinWaiters := new RegistrationSet<bool>(contexts);
      this.router, this.contextIndex := router, contextIndex;
    }

    ghost function View(): Thread
      reads control, joinWaiters.slots, router
    {
      Thread(control.View(), joinWaiters.slots[..], router.signals)
    }

    /** canActivate is what the second look at the lifecycle, under the mutex, answered. */
    method StartActivation(canActivate: bool) returns (result: StartResult, ghost woken: bool)
      modifies control, router
      ensures !canActivate ==> result == ShuttingDown && View() == old(View())
      ensures canActivate ==> StartReached(old(View()), contextIndex, woken, router.signals)
      ensures canActivate ==> View() == StartSection(old(View()), router.signals, woken)
      ensures canActivate ==> result == Outcome(old(View()).control, woken)
      ensures result == ShuttingDown <==> !canActivate
      ensures result == AlreadyRunning <==> canActivate && IsActive(old(View()).control)
      ensures result == Started <==>
        canActivate && View().control == Control(Running, !old(View()).control.phase) && !IsActive(old(View()).control)
      ensures result == ActivationFailed ==> contextIndex in router.signals.failed
    {
      woken := false;
      if !canActivate { return ShuttingDown, false; }
      if IsActive(control.View()) { return AlreadyRunning, false; }
      var signaled := router.Wake(contextIndex);
      woken := signaled;
      if !signaled { return ActivationFailed, false; }
      var started, phase := control.TryStart();
      result := if started then Started else ActivationFailed;
    }

    /** A stop request stands even when the wake that should hasten it fails. */
    method RequestStop() returns (accepted: bool)
      modifies control, router
      ensures accepted <==> old(View()).control.state.Running?
      ensures StopReached(old(View()), contextIndex, router.signals)
      ensures View() == StopSection(old(View()), router.signals)
    {
      accepted := control.TryRequestStop();
      if !accepted { return false; }
      var signaled := router.Wake(contextIndex);
    }

    /** Publishes the end of an activation and wakes the joiners that captured its Phase. */
    method PublishStopped(phase: bool) returns (publication: Publication, ok: bool)
      modifies control, router
      ensures publication == PublicationOf(old(View()).control, phase)
      ensures PublishReached(old(View()), phase, router.signals)
      ensures Told(old(router.signals), router.signals, ok)
      ensures View() == PublishSection(old(View()), phase, router.signals)
    {
      publication := control.TryPublishStopped(phase);
      ok := true;
      if publication.Published? { ok := joinWaiters.WakeMatching(phase, router); }
    }

    method EnterJoin(context: nat) returns (result: JoinEntryResult)
      modifies joinWaiters.slots
      ensures View() == JoinEntry(old(View()), context)
      ensures result == JoinEntryOf(old(View()))
      ensures result == NeverStartedYet <==> old(View()).control.state.NeverStarted?
      ensures result == JoinedAtOnce <==> old(View()).control.state.Stopped?
      ensures result.JoinRegistered? ==>
        result.captured == old(View()).control.phase && result.slot < |old(View()).joiners|
        && old(View()).joiners[result.slot].Inactive?
        && View().joiners == old(View()).joiners[result.slot := Active(result.captured, context)]
    {
      var state, captured := control.View().state, control.View().phase;
      if state.NeverStarted? { return NeverStartedYet; }
      if state.Stopped? { return JoinedAtOnce; }
      var index := joinWaiters.Register(captured, context);
      return if index.Some? then JoinRegistered(index.value, captured) else NoJoinRoom;
    }

    /** One look after the wait came back; interrupted, failed and expired say why it may have to end. */
    method RecheckJoin(slot: nat, captured: bool, interrupted: bool, failed: bool, expired: bool)
      returns (answer: Option<JoinAnswer>)
      requires slot < joinWaiters.slots.Length
      modifies joinWaiters.slots
      ensures answer == Some(Joined) <==> IsActivationStopped(old(View()).control, captured)
      ensures answer == Some(JoinInterrupted) <==>
        !IsActivationStopped(old(View()).control, captured) && (interrupted || failed)
      ensures answer == Some(JoinTimedOut) <==>
        !IsActivationStopped(old(View()).control, captured) && !interrupted && !failed && expired
      ensures View() == JoinRecheck(old(View()), slot, captured, interrupted || failed || expired)
    {
      var joined := IsActivationStopped(control.View(), captured);
      if !joined && !interrupted && !failed && !expired { return None; }
      joinWaiters.Unregister(slot);
      answer := Some(if joined then Joined else if interrupted || failed then JoinInterrupted else JoinTimedOut);
    }

    method IsExecutionQuiescent() returns (quiescent: bool)
      ensures quiescent <==> !IsActive(View().control)
    {
      quiescent := !IsActive(control.View());
    }
  }
}
