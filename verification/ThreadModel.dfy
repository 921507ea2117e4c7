/** The control byte of a Dedicated Thread as a value and as the packed byte, and the sections the
    thread's mutex protects. */
module ThreadModel {
  import opened Registrations

  datatype ActivationState = NeverStarted | Running | RunningStopRequested | Stopped

  datatype Control = Control(state: ActivationState, phase: bool)

  const FIRST_CONTROL := Control(NeverStarted, false)

  predicate IsActive(c: Control) { c.state.Running? || c.state.RunningStopRequested? }

  function Start(c: Control): Control {
    if IsActive(c) then c else Control(Running, !c.phase)
  }

  function RequestStop(c: Control): Control {
    if c.state.Running? then c.(state := RunningStopRequested) else c
  }

  datatype Publication = Published | PhaseMismatch | NotRunning

  function PublicationOf(c: Control, phase: bool): Publication {
    if c.phase != phase then PhaseMismatch else if !IsActive(c) then NotRunning else Published
  }

  function PublishStopped(c: Control, phase: bool): Control {
    if PublicationOf(c, phase).Published? then c.(state := Stopped) else c
  }

  /** What a joiner that captured the given Phase concludes from the control byte alone. */
  predicate IsActivationStopped(c: Control, captured: bool) { c.phase != captured || c.state.Stopped? }

  // ---------------------------------------------------------------- the packed byte

  const STATE_MASK: bv8 := 0x03
  const PHASE_MASK: bv8 := 0x04

  function Code(state: ActivationState): bv8 {
    match state
    case NeverStarted => 0
    case Running => 1
    case RunningStopRequested => 2
    case Stopped => 3
  }

  function Decode(value: bv8): Control {
    var code := value & STATE_MASK;
    Control(if code == 0 then NeverStarted else if code == 1 then Running
            else if code == 2 then RunningStopRequested else Stopped,
            value & PHASE_MASK != 0)
  }

  /** The byte decodes to the state and the Phase that were packed into it. */
  lemma PackedRoundTrip(state: ActivationState, phase: bool)
    ensures Decode((if phase then PHASE_MASK else 0) | Code(state)) == Control(state, phase)
  {
    var value := (if phase then PHASE_MASK else 0) | Code(state);
    match state
    case NeverStarted => assert value & STATE_MASK == 0;
    case Running => assert value & STATE_MASK == 1;
    case RunningStopRequested => assert value & STATE_MASK == 2;
    case Stopped => assert value & STATE_MASK == 3;
  }

  class DedicatedThreadControl {
    var value: bv8

    constructor ()
      ensures View() == FIRST_CONTROL
    {
      value := 0;
    }

    function View(): Control
      reads this
    {
      Decode(value)
    }

    method TryStart() returns (started: bool, activationPhase: bool)
      modifies this
      ensures started <==> !IsActive(old(View()))
      ensures View() == Start(old(View()))
      ensures started ==> View() == Control(Running, !old(View()).phase)
      ensures !started ==> View() == old(View())
      ensures started ==> activationPhase == View().phase
    {
      if IsActive(View()) { return false, false; }
      var nextPhase := (value ^ PHASE_MASK) & PHASE_MASK;
      PackedRoundTrip(Running, !View().phase);
      value := nextPhase | Code(Running);
      return true, nextPhase != 0;
    }

    method TryRequestStop() returns (accepted: bool)
      modifies this
      ensures accepted <==> old(View()).state.Running?
      ensures View() == RequestStop(old(View()))
      ensures View() == if accepted then Control(RunningStopRequested, old(View()).phase) else old(View())
    {
      if !View().state.Running? { return false; }
      PackedRoundTrip(RunningStopRequested, View().phase);
      value := (value & PHASE_MASK) | Code(RunningStopRequested);
      return true;
    }

    method TryPublishStopped(activationPhase: bool) returns (publication: Publication)
      modifies this
      ensures publication == PublicationOf(old(View()), activationPhase)
      ensures View() == PublishStopped(old(View()), activationPhase)
      ensures publication == PhaseMismatch <==> old(View()).phase != activationPhase
      ensures publication == NotRunning <==>
        old(View()).phase == activationPhase && (old(View()).state.NeverStarted? || old(View()).state.Stopped?)
      ensures View() == if publication.Published? then Control(Stopped, activationPhase) else old(View())
    {
      if View().phase != activationPhase { return PhaseMismatch; }
      if !IsActive(View()) { return NotRunning; }
      PackedRoundTrip(Stopped, View().phase);
      value := (value & PHASE_MASK) | Code(Stopped);
      return Published;
    }
  }

  // ---------------------------------------------------------------- the mutex-protected sections

  datatype Thread = Thread(control: Control, joiners: seq<Slot<bool>>, signals: Signals)

  /** The locked part of StartActivation after its second look at the lifecycle: the thread's own
      context is woken before the activation is published, and a failed wake starts nothing. */
  function StartSection(t: Thread, s: Signals, woken: bool): Thread {
    if !IsActive(t.control) && woken then t.(control := Start(t.control), signals := s) else t.(signals := s)
  }

  predicate StartReached(t: Thread, own: nat, woken: bool, s: Signals) {
    && Notified(t.signals, s)
    && (!IsActive(t.control) ==> if woken then own in s.latched else own in s.failed)
  }

  function StopSection(t: Thread, s: Signals): Thread {
    t.(control := RequestStop(t.control), signals := s)
  }

  /** An accepted request wakes the thread's own context, with whatever success. */
  predicate StopReached(t: Thread, own: nat, s: Signals) {
    Notified(t.signals, s) && (t.control.state.Running? ==> Reached(s, {own}))
  }

  function PublishSection(t: Thread, phase: bool, s: Signals): Thread {
    t.(control := PublishStopped(t.control, phase), signals := s)
  }

  /** Publication wakes the joiners that captured its Phase. */
  predicate PublishReached(t: Thread, phase: bool, s: Signals) {
    && Notified(t.signals, s)
    && (PublicationOf(t.control, phase).Published? ==> Reached(s, Waiting(t.joiners, phase)))
  }

  /** A join registers for the Phase it finds, unless there is nothing to wait for. */
  function JoinEntry(t: Thread, context: nat): Thread {
    if IsActive(t.control) then t.(joiners := Register(t.joiners, t.control.phase, context)) else t
  }

  function JoinRecheck(t: Thread, slot: nat, captured: bool, leave: bool): Thread {
    if IsActivationStopped(t.control, captured) || leave then t.(joiners := Unregister(t.joiners, slot)) else t
  }
}
