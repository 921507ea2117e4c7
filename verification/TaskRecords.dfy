/** One Task record: the packed control byte, the scratch scalar that is a queue link while the Task
    is Queued and a Worker context afterwards, and the payload buffer. */
module TaskRecords {
  import opened Registrations
  import opened TaskModel
  import opened CompactIndex

  const STATE_MASK: bv8 := 0x07
  const OWNER_MASK: bv8 := 0x08
  const PHASE_MASK: bv8 := 0x10

  function Code(state: OperationalState): (code: bv8)
    ensures code & STATE_MASK == code
  {
    match state
    case Queued => 0
    case Running => 1
    case RunningCancelRequested => 2
    case Completed => 3
    case Cancelled => 4
  }

  /** The state a control byte encodes; the three unused codes read as Cancelled. */
  function Decode(value: bv8): OperationalState {
    var code := value & STATE_MASK;
    if code == 0 then Queued
    else if code == 1 then Running
    else if code == 2 then RunningCancelRequested
    else if code == 3 then Completed
    else Cancelled
  }

  /** The three parts of the control byte do not disturb each other. */
  lemma PackedRoundTrip(state: OperationalState, owner: bool, phase: bool)
    ensures var value := (if phase then PHASE_MASK else 0) | (if owner then OWNER_MASK else 0) | Code(state);
      && Decode(value) == state
      && (value & OWNER_MASK != 0 <==> owner) && (value & PHASE_MASK != 0 <==> phase)
  {
    var value := (if phase then PHASE_MASK else 0) | (if owner then OWNER_MASK else 0) | Code(state);
    match state
    case Queued => assert value & STATE_MASK == 0;
    case Running => assert value & STATE_MASK == 1;
    case RunningCancelRequested => assert value & STATE_MASK == 2;
    case Completed => assert value & STATE_MASK == 3;
    case Cancelled => assert value & STATE_MASK == 4;
  }

  /** What the scratch scalar holds when there is no next record. */
  function NoLink(records: nat, contexts: nat): (sentinel: nat)
    requires records <= MAX_CAPACITY && contexts <= MAX_CAPACITY
    ensures sentinel >= records
  {
    Cast(StorageMax(records), ScratchCapacity(records, contexts))
  }

  function NextOf(scratch: nat, sentinel: nat): Option<nat> {
    if scratch == sentinel then None else Some(scratch)
  }

  class TaskRecord {
    const recordCapacity: nat
    const contextCapacity: nat

    /** State, owner bit and Phase bit. */
    var value: bv8

    /** Queued: next record index.  Granted: managed context index. */
    var scratch: nat

    var payload: Payload

    /** Whether the payload operations of the Task's callable are bound. */
    var bound: bool

    /** Capacities the index scalars can represent. */
    predicate Sized() { recordCapacity <= MAX_CAPACITY && contextCapacity <= MAX_CAPACITY }

    constructor (recordCapacity: nat, contextCapacity: nat)
      requires recordCapacity <= MAX_CAPACITY && contextCapacity <= MAX_CAPACITY
      ensures Sized() && this.recordCapacity == recordCapacity && this.contextCapacity == contextCapacity
      ensures State() == Queued && !HasOwner() && !Phase() && payload == Empty && !bound
    {
      this.recordCapacity, this.contextCapacity := recordCapacity, contextCapacity;
      value, scratch, payload, bound := 0, StorageMax(recordCapacity), Empty, false;
    }

    // The control byte.

    function State(): OperationalState
      reads `value
    {
      Decode(value)
    }

    predicate HasOwner()
      reads `value
    {
      value & OWNER_MASK != 0
    }

    predicate Phase()
      reads `value
    {
      value & PHASE_MASK != 0
    }

    method InitializeQueued()
      modifies `value
      ensures State() == Queued && HasOwner() && Phase() == !old(Phase())
    {
      var nextPhase := (value ^ PHASE_MASK) & PHASE_MASK;
      value := nextPhase | OWNER_MASK | Code(Queued);
      PackedRoundTrip(Queued, true, !old(Phase()));
    }

    method SetState(state: OperationalState)
      modifies `value
      ensures State() == state && HasOwner() == old(HasOwner()) && Phase() == old(Phase())
    {
      value := (value & !STATE_MASK) | Code(state);
    }

    method CompareExchangeState(expected: OperationalState, desired: OperationalState) returns (applied: bool)
      modifies `value
      ensures applied <==> old(State()) == expected
      ensures State() == if applied then desired else old(State())
      ensures HasOwner() == old(HasOwner()) && Phase() == old(Phase())
    {
      if State() != expected { return false; }
      SetState(desired);
      return true;
    }

    method ReleaseOwner()
      modifies `value
      ensures !HasOwner() && State() == old(State()) && Phase() == old(Phase())
    {
      value := value & !OWNER_MASK;
    }

    // The scratch scalar.

    /** Stores a narrower index in the scratch scalar. */
    function Widen(x: nat): nat
      requires Sized()
    {
      Cast(x, ScratchCapacity(recordCapacity, contextCapacity))
    }

    function QueueNext(): Option<nat>
      requires Sized()
      reads `scratch
    {
      NextOf(scratch, NoLink(recordCapacity, contextCapacity))
    }

    method SetQueueNext(next: Option<nat>)
      requires Sized() && (next.Some? ==> next.value < recordCapacity)
      modifies `scratch
      ensures QueueNext() == next
      ensures scratch == if next.Some? then next.value else NoLink(recordCapacity, contextCapacity)
    {
      scratch := Widen(if next.Some? then next.value else StorageMax(recordCapacity));
      ScratchRoundTrip(recordCapacity, contextCapacity, if next.Some? then next.value else StorageMax(recordCapacity));
    }

    /** The sentinel StorageMax(contextCapacity) reads as no context. */
    function CurrentContext(): Option<nat>
      requires Sized()
      reads `scratch
    {
      var context := Cast(scratch, contextCapacity);
      if context == StorageMax(contextCapacity) then None else Some(context)
    }

    method SetContext(context: Option<nat>)
      requires Sized() && (context.Some? ==> context.value < contextCapacity)
      modifies `scratch
      ensures CurrentContext() == context
    {
      scratch := Widen(if context.Some? then context.value else StorageMax(contextCapacity));
      ScratchRoundTrip(recordCapacity, contextCapacity,
                       if context.Some? then context.value else StorageMax(contextCapacity));
    }

    // The payload buffer.

    method Invoke(outcome: InvocationOutcome, result: nat)
      requires bound
      modifies `payload
      ensures payload == InvokePayload(old(payload), outcome, result)
    {
      payload := if payload.Callable? then Empty else Corrupt;
      if outcome.Finished? && payload.Empty? {
        payload := Result(result);
      }
    }

    method DestroyCallable()
      requires bound
      modifies `payload
      ensures payload == TaskModel.DestroyCallable(old(payload))
    {
      payload := if payload.Callable? then Empty else Corrupt;
    }

    method DestroyResult()
      requires bound
      modifies `payload
      ensures payload == TaskModel.DestroyResult(old(payload))
    {
      payload := if payload.Result? then Empty else Corrupt;
    }

    method MoveResult() returns (destination: Option<nat>)
      requires bound
      modifies `payload
      ensures payload == TaskModel.DestroyResult(old(payload))
      ensures destination == if old(payload).Result? then Some(old(payload).value) else None
    {
      destination := if payload.Result? then Some(payload.value) else None;
      payload := if payload.Result? then Empty else Corrupt;
    }

    // The record as a value.  The scratch scalar means a context only once the Task left the queue.

    ghost function View(free: bool): Record
      requires Sized()
      reads this
    {
      Record(free, Phase(),
             Body(State(), HasOwner(), if free || State().Queued? then None else CurrentContext(), payload))
    }
  }
}
