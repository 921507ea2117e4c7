/** The Task facility as values: what one record holds, what each operation of the facility
    core does to it, and what each mutex-protected section of the facility runtime does to the
    whole facility.  The classes of TaskFacilityCore and TaskFacilityRuntime are proved against
    these functions, and the interleaved runs of TaskProtocol are built from them. */
module TaskModel {

  import opened Registrations

  // ---------------------------------------------------------------- one Task

  datatype OperationalState = Queued | Running | RunningCancelRequested | Completed | Cancelled

  datatype TaskState = TaskQueued | TaskRunning | TaskCompleted | TaskCancelled

  datatype InvocationOutcome = Finished | Abandoned

  /** What the one payload buffer of a record holds.  Corrupt is what an operation leaves behind
      when it reads the buffer as the wrong kind of object. */
  datatype Payload = Empty | Callable(work: nat) | Result(value: nat) | Corrupt

  /** The part of a record that belongs to the Task in it.  grant is the Worker context the Task
      was granted to; None stands for the invalid context sentinel. */
  datatype Body = Body(state: OperationalState, owner: bool, grant: Option<nat>, payload: Payload)

  function DestroyCallable(p: Payload): Payload {
    if p.Callable? then Empty else Corrupt
  }

  /** Destroying a result, and moving it out, both end its life in the buffer. */
  function DestroyResult(p: Payload): Payload {
    if p.Result? then Empty else Corrupt
  }

  /** Runs and destroys the callable; a normal return leaves a result behind. */
  function InvokePayload(p: Payload, outcome: InvocationOutcome, value: nat): Payload {
    if !p.Callable? then Corrupt else if outcome.Finished? then Result(value) else Empty
  }

  predicate IsTerminal(b: Body) { b.state.Completed? || b.state.Cancelled? }

  predicate IsRunning(b: Body) { b.state.Running? || b.state.RunningCancelRequested? }

  predicate HasGrant(b: Body) {
    match b.state
    case Queued => false
    case Cancelled => b.grant.Some?
    case _ => true
  }

  function PublicState(b: Body): TaskState {
    match b.state
    case Queued => TaskQueued
    case Running => TaskRunning
    case RunningCancelRequested => TaskRunning
    case Completed => TaskCompleted
    case Cancelled => TaskCancelled
  }

  function FreshBody(work: nat): Body { Body(Queued, true, None, Callable(work)) }

  function GrantBody(b: Body, w: nat): Body { b.(state := Running, grant := Some(w)) }

  function CancelBody(b: Body): Body {
    match b.state
    case Queued => b.(state := Cancelled, grant := None, payload := DestroyCallable(b.payload))
    case Running => b.(state := RunningCancelRequested)
    case _ => b
  }

  function ReleaseBody(b: Body): Body {
    match b.state
    case Queued => CancelBody(b).(owner := false)
    case Completed => b.(owner := false, payload := DestroyResult(b.payload))
    case _ => b.(owner := false)
  }

  function TakeBody(b: Body): Body {
    if b.state.Completed? then b.(owner := false, payload := DestroyResult(b.payload)) else b
  }

  function InvokeBody(b: Body, outcome: InvocationOutcome, value: nat): Body {
    b.(payload := InvokePayload(b.payload, outcome, value))
  }

  function PublishBody(b: Body, outcome: InvocationOutcome): Body {
    if outcome.Abandoned? then b.(state := Cancelled)
    else if b.owner then b.(state := Completed)
    else b.(state := Completed, payload := DestroyResult(b.payload))
  }

  // ---------------------------------------------------------------- the record table

  /** A slot index with the one-bit Phase captured at admission. */
  datatype Ref = Ref(index: nat, phase: bool)

  datatype Record = Record(free: bool, phase: bool, body: Body)

  /** The record table and the FIFO of queued slots. */
  datatype Core = Core(records: seq<Record>, queue: seq<nat>)

  predicate Live(c: Core, i: nat) { i < |c.records| && !c.records[i].free }

  predicate IsCurrent(c: Core, r: Ref) {
    r.index < |c.records| && c.records[r.index].phase == r.phase
  }

  function RefOf(c: Core, i: nat): Ref
    requires i < |c.records|
  {
    Ref(i, c.records[i].phase)
  }

  /** The lowest free slot, or the table size when there is none. */
  function FirstFree(rs: seq<Record>): (k: nat)
    ensures k <= |rs|
    ensures k < |rs| ==> rs[k].free
    ensures forall j :: 0 <= j < k ==> !rs[j].free
  {
    if rs == [] || rs[0].free then 0 else 1 + FirstFree(rs[1..])
  }

  predicate HasCapacity(c: Core) { FirstFree(c.records) < |c.records| }

  /** A FIFO with one element taken out of the middle. */
  function Without(q: seq<nat>, x: nat): seq<nat> {
    if q == [] then [] else if q[0] == x then q[1..] else [q[0]] + Without(q[1..], x)
  }

  function Put(c: Core, i: nat, b: Body): Core
    requires i < |c.records|
  {
    c.(records := c.records[i := c.records[i].(body := b)])
  }

  function Admit(c: Core, work: nat): Core
    requires HasCapacity(c)
  {
    var i := FirstFree(c.records);
    Core(c.records[i := Record(false, !c.records[i].phase, FreshBody(work))], c.queue + [i])
  }

  function AdmittedRef(c: Core): Ref
    requires HasCapacity(c)
  {
    var i := FirstFree(c.records);
    Ref(i, !c.records[i].phase)
  }

  predicate CanClaim(c: Core) { c.queue != [] && c.queue[0] < |c.records| }

  function Claim(c: Core, w: nat): Core
    requires CanClaim(c)
  {
    var i := c.queue[0];
    Put(c.(queue := c.queue[1..]), i, GrantBody(c.records[i].body, w))
  }

  /** Leaving the queue is what happens to a slot whose Task stops being Queued by cancellation. */
  function Unqueue(c: Core, i: nat): Core
    requires i < |c.records|
  {
    if c.records[i].body.state.Queued? then c.(queue := Without(c.queue, i)) else c
  }

  function Cancel(c: Core, r: Ref): Core {
    if IsCurrent(c, r)
    then Put(Unqueue(c, r.index), r.index, CancelBody(c.records[r.index].body)) else c
  }

  predicate CancelAccepted(c: Core, r: Ref) {
    IsCurrent(c, r) && !IsTerminal(c.records[r.index].body)
  }

  predicate IsQueued(c: Core, r: Ref) {
    IsCurrent(c, r) && c.records[r.index].body.state.Queued?
  }

  function Release(c: Core, r: Ref): Core {
    if IsCurrent(c, r)
    then Put(Unqueue(c, r.index), r.index, ReleaseBody(c.records[r.index].body)) else c
  }

  predicate IsCompleted(c: Core, r: Ref) {
    IsCurrent(c, r) && c.records[r.index].body.state.Completed?
  }

  datatype TakeStatus = TakeSucceeded | TakeCancelled | TakeNotCompleted

  function TakeStatusOf(c: Core, r: Ref): TakeStatus {
    if IsCompleted(c, r) then TakeSucceeded
    else if IsCurrent(c, r) && c.records[r.index].body.state.Cancelled? then TakeCancelled
    else TakeNotCompleted
  }

  function Take(c: Core, r: Ref): Core {
    if IsCompleted(c, r) then Put(c, r.index, TakeBody(c.records[r.index].body)) else c
  }

  /** What a taker of the result receives. */
  function ResultOf(c: Core, r: Ref): Option<nat> {
    if IsCompleted(c, r) && c.records[r.index].body.payload.Result?
    then Some(c.records[r.index].body.payload.value) else None
  }

  function Invoke(c: Core, r: Ref, outcome: InvocationOutcome, value: nat): Core
    requires r.index < |c.records|
  {
    Put(c, r.index, InvokeBody(c.records[r.index].body, outcome, value))
  }

  function Publish(c: Core, r: Ref, outcome: InvocationOutcome): Core {
    if IsCurrent(c, r) then Put(c, r.index, PublishBody(c.records[r.index].body, outcome)) else c
  }

  predicate OwnerlessTerminal(c: Core, r: Ref) {
    && IsCurrent(c, r)
    && !c.records[r.index].body.owner
    && IsTerminal(c.records[r.index].body)
  }

  function Reclaim(c: Core, r: Ref): Core {
    if OwnerlessTerminal(c, r) && !c.records[r.index].free
    then c.(records := c.records[r.index :=
              c.records[r.index].(free := true, body := c.records[r.index].body.(grant := None))])
    else c
  }

  // What callers observe.

  function StateOf(c: Core, r: Ref): TaskState {
    if IsCurrent(c, r) then PublicState(c.records[r.index].body) else TaskCancelled
  }

  predicate Terminated(c: Core, r: Ref) {
    StateOf(c, r).TaskCompleted? || StateOf(c, r).TaskCancelled?
  }

  predicate Granted(c: Core, r: Ref) {
    IsCurrent(c, r) && HasGrant(c.records[r.index].body)
  }

  predicate CancellationRequested(c: Core, r: Ref) {
    IsCurrent(c, r) && c.records[r.index].body.state.RunningCancelRequested?
  }

  /** The first slot at or after k that runs on Worker context w. */
  function AssignedFrom(c: Core, w: nat, k: nat): Option<Ref>
    requires k <= |c.records|
    decreases |c.records| - k
  {
    if k == |c.records| then None
    else if IsRunning(c.records[k].body) && c.records[k].body.grant == Some(w)
    then Some(RefOf(c, k))
    else AssignedFrom(c, w, k + 1)
  }

  function Assigned(c: Core, w: nat): Option<Ref> { AssignedFrom(c, w, 0) }

  /** Slot i runs on Worker w and was asked to stop. */
  predicate AsksAt(c: Core, i: nat, w: nat) {
    i < |c.records| && c.records[i].body.state.RunningCancelRequested? && c.records[i].body.grant == Some(w)
  }

  predicate CancellationRequestedFor(c: Core, w: nat) { exists i :: 0 <= i < |c.records| && AsksAt(c, i, w) }

  predicate HasExecutionWork(c: Core) {
    exists i :: 0 <= i < |c.records| && !c.records[i].free && !IsTerminal(c.records[i].body)
  }

  /** Cancels the Tasks of every allocated slot from k on, in slot order. */
  function CancelFrom(c: Core, k: nat): Core
    requires k <= |c.records|
    decreases |c.records| - k
  {
    if k == |c.records| then c
    else CancelFrom(if c.records[k].free then c else Cancel(c, RefOf(c, k)), k + 1)
  }

  // ---------------------------------------------------------------- the whole facility

  datatype Facility = Facility(
    core: Core,
    waiters: seq<Slot<Ref>>,
    admission: seq<Slot<()>>,
    workers: seq<bool>,
    first: nat,
    signals: Signals)

  /** The lowest set bit, or the width when there is none. */
  function FirstSet(bits: seq<bool>): (k: nat)
    ensures k <= |bits|
    ensures k < |bits| ==> bits[k]
    ensures forall j :: 0 <= j < k ==> !bits[j]
  {
    if bits == [] || bits[0] then 0 else 1 + FirstSet(bits[1..])
  }

  predicate AnyAvailable(f: Facility) { FirstSet(f.workers) < |f.workers| }

  predicate IsWorker(f: Facility, w: nat) { f.first <= w < f.first + |f.workers| }

  predicate Available(f: Facility, w: nat) { IsWorker(f, w) && f.workers[w - f.first] }

  /** The executing Worker is served before the lowest available one. */
  function NextWorker(f: Facility, current: Option<nat>): (w: nat)
    requires AnyAvailable(f)
    ensures Available(f, w)
  {
    if current.Some? && Available(f, current.value) then current.value
    else f.first + FirstSet(f.workers)
  }

  function MarkAvailable(f: Facility, w: nat): Facility {
    if IsWorker(f, w) then f.(workers := f.workers[w - f.first := true]) else f
  }

  function GrantNext(f: Facility, w: nat): Facility
    requires CanClaim(f.core) && IsWorker(f, w)
  {
    f.(core := Claim(f.core, w), workers := f.workers[w - f.first := false])
  }

  predicate CanGrant(f: Facility) { AnyAvailable(f) && CanClaim(f.core) }

  predicate CanSchedule(f: Facility, current: Option<nat>, n: nat)
    decreases n
  {
    n == 0 || (CanGrant(f) && CanSchedule(GrantNext(f, NextWorker(f, current)), current, n - 1))
  }

  /** n grants, oldest Task first. */
  function Schedule(f: Facility, current: Option<nat>, n: nat): (g: Facility)
    requires CanSchedule(f, current, n)
    ensures g.waiters == f.waiters && g.admission == f.admission && g.first == f.first
    ensures g.signals == f.signals && |g.workers| == |f.workers|
    decreases n
  {
    if n == 0 then f else Schedule(GrantNext(f, NextWorker(f, current)), current, n - 1)
  }

  /** Every Worker granted by a scheduling pass is the executing one or was woken first, and the
      waiters of every granted Task were notified. */
  predicate ScheduleReached(f: Facility, current: Option<nat>, n: nat, s: Signals)
    requires CanSchedule(f, current, n)
    decreases n
  {
    n == 0 ||
    var w := NextWorker(f, current);
    && (current == Some(w) || w in s.latched)
    && Reached(s, Waiting(f.waiters, RefOf(f.core, f.core.queue[0])))
    && ScheduleReached(GrantNext(f, w), current, n - 1, s)
  }

  predicate Saturated(f: Facility) { !AnyAvailable(f) || f.core.queue == [] }

  /** A pass stops when nothing is left to grant or the next Worker could not be woken. */
  predicate ScheduleStops(f: Facility, current: Option<nat>, s: Signals) {
    Saturated(f) || (current != Some(NextWorker(f, current)) && NextWorker(f, current) in s.failed)
  }

  predicate Reclaimable(f: Facility, r: Ref) {
    && OwnerlessTerminal(f.core, r)
    && !Waited(f.waiters, r)
    && !f.core.records[r.index].free
  }

  function ReclaimIfQuiescent(f: Facility, r: Ref): Facility {
    if Reclaimable(f, r) then f.(core := Reclaim(f.core, r)) else f
  }

  /** A reclaimed record is announced to every context waiting for capacity. */
  predicate ReclaimReached(f: Facility, r: Ref, s: Signals) {
    Reclaimable(f, r) ==> Reached(s, Waiting(f.admission, ()))
  }

  // The mutex-protected sections.  s is the signal state at the end of the section.

  function CancelSection(f: Facility, r: Ref, s: Signals): Facility {
    ReclaimIfQuiescent(f.(core := Cancel(f.core, r), signals := s), r)
  }

  function ReleaseSection(f: Facility, r: Ref, s: Signals): Facility {
    ReclaimIfQuiescent(f.(core := Release(f.core, r), signals := s), r)
  }

  function TakeSection(f: Facility, r: Ref, s: Signals): Facility {
    ReclaimIfQuiescent(f.(core := Take(f.core, r), signals := s), r)
  }

  function UnregisterSection(f: Facility, slot: nat, r: Ref, s: Signals): Facility {
    ReclaimIfQuiescent(f.(waiters := Unregister(f.waiters, slot), signals := s), r)
  }

  /** Everything CompleteWorkerTask does before it looks for more work. */
  function CompletePrefix(f: Facility, w: nat, r: Ref, outcome: InvocationOutcome, s: Signals): Facility {
    MarkAvailable(ReclaimIfQuiescent(f.(core := Publish(f.core, r, outcome), signals := s), r), w)
  }

  function AdmitPrefix(f: Facility, work: nat, s: Signals): Facility
    requires HasCapacity(f.core)
  {
    f.(core := Admit(f.core, work), signals := s)
  }

  datatype DispatchPolicy = QueueForever | QueueWithTimeout | AbandonImmediately

  datatype DispatchStatus = Succeeded | Unavailable | TimedOut | Interrupted

  /** How the admitting section of a dispatch ends. */
  datatype DispatchEnd = HandleReturned | Withdrawn(status: DispatchStatus) | MustWait

  function DispatchEnds(g: Facility, r: Ref, policy: DispatchPolicy, ok: bool, caller: Option<nat>): DispatchEnd {
    if !ok && !Granted(g.core, r) then Withdrawn(Interrupted)
    else if policy.AbandonImmediately? && !Granted(g.core, r) then Withdrawn(Unavailable)
    else if !policy.QueueWithTimeout? || Granted(g.core, r) then HandleReturned
    else if caller.None? then Withdrawn(Interrupted)
    else MustWait
  }

  /** Releases the unreturned Task and reclaims its record when nothing else wants it. */
  function Withdraw(f: Facility, r: Ref): Facility {
    ReclaimIfQuiescent(f.(core := Release(f.core, r)), r)
  }

  function SettleSection(g: Facility, r: Ref, end: DispatchEnd): Facility {
    if end.Withdrawn? then Withdraw(g, r) else g
  }

  /** A dispatch that finds a free record: admission, one scheduling pass of n grants whose worst
      notification outcome is ok, and withdrawal when the Task cannot be returned. */
  function DispatchSection(f: Facility, caller: Option<nat>, policy: DispatchPolicy, work: nat, n: nat,
                           ok: bool, s: Signals): Facility
    requires HasCapacity(f.core) && CanSchedule(AdmitPrefix(f, work, s), caller, n)
  {
    var g := Schedule(AdmitPrefix(f, work, s), caller, n);
    SettleSection(g, AdmittedRef(f.core), DispatchEnds(g, AdmittedRef(f.core), policy, ok, caller))
  }

  // What the waiting sections leave behind; none of them notifies anybody except through reclamation.

  function TaskWaitEntry(f: Facility, c: nat, r: Ref): Facility {
    if Terminated(f.core, r) then f else f.(waiters := Register(f.waiters, r, c))
  }

  /** Why a wait that does not find what it waits for is to end: the context is interrupted, the platform
      failed it, or its budget is spent. */
  datatype Cause = Cause(interrupted: bool, failed: bool, expired: bool)

  predicate Leaves(why: Cause) { why.interrupted || why.failed || why.expired }

  datatype TaskWaitResult = WaitFinished | WaitInterrupted | WaitTimedOut

  function TaskWaitRecheck(f: Facility, slot: nat, r: Ref, leave: bool, s: Signals): Facility {
    if Terminated(f.core, r) || leave then UnregisterSection(f, slot, r, s) else f
  }

  function GrantWaitEntry(f: Facility, c: nat, r: Ref): Facility {
    if Granted(f.core, r) then f
    else if FirstInactive(f.waiters) < |f.waiters| then f.(waiters := Register(f.waiters, r, c))
    else Withdraw(f, r)
  }

  function GrantWaitRecheck(f: Facility, slot: nat, r: Ref, leave: bool, s: Signals): Facility {
    if Granted(f.core, r) then UnregisterSection(f, slot, r, s)
    else if leave then Withdraw(f.(waiters := Unregister(f.waiters, slot), signals := s), r)
    else f
  }

  function CapacityWaitEntry(f: Facility, c: nat): Facility {
    if HasCapacity(f.core) then f else f.(admission := Register(f.admission, (), c))
  }

  function CapacityWaitRecheck(f: Facility, slot: nat, leave: bool): Facility {
    if HasCapacity(f.core) || leave then f.(admission := Unregister(f.admission, slot)) else f
  }

  /** AbandonImmediately is refused when no Worker is free or others queue first. */
  predicate Refused(f: Facility, policy: DispatchPolicy) {
    policy.AbandonImmediately? && (!AnyAvailable(f) || f.core.queue != [])
  }

  function ShutdownSection(f: Facility, s: Signals): Facility {
    f.(core := CancelFrom(f.core, 0), signals := s)
  }
  // What each section has notified by the time it ends.

  /** The Worker context that runs the Task, if any. */
  function Runner(c: Core, r: Ref): set<nat> {
    if IsCurrent(c, r) && IsRunning(c.records[r.index].body) && c.records[r.index].body.grant.Some?
    then {c.records[r.index].body.grant.value} else {}
  }

  predicate CancelReached(f: Facility, r: Ref, s: Signals) {
    && (IsQueued(f.core, r) ==> Reached(s, Waiting(f.waiters, r)))
    && Reached(s, Runner(f.core, r))
    && ReclaimReached(f.(core := Cancel(f.core, r)), r, s)
  }

  predicate ReleaseReached(f: Facility, r: Ref, s: Signals) {
    && (IsQueued(f.core, r) ==> Reached(s, Waiting(f.waiters, r)))
    && ReclaimReached(f.(core := Release(f.core, r)), r, s)
  }

  predicate TakeReached(f: Facility, r: Ref, s: Signals) {
    ReclaimReached(f.(core := Take(f.core, r)), r, s)
  }

  predicate UnregisterReached(f: Facility, slot: nat, r: Ref, s: Signals) {
    ReclaimReached(f.(waiters := Unregister(f.waiters, slot)), r, s)
  }

  /** A withdrawn dispatch wakes nobody itself; only its reclamation is announced. */
  predicate WithdrawReached(f: Facility, r: Ref, s: Signals) {
    ReclaimReached(f.(core := Release(f.core, r)), r, s)
  }

  /** A scheduling pass of n grants whose worst notification outcome is ok. */
  predicate PassReached(f: Facility, current: Option<nat>, n: nat, ok: bool, s: Signals) {
    && CanSchedule(f, current, n) && ScheduleReached(f, current, n, s)
    && var g := Schedule(f, current, n);
    && ScheduleStops(g, current, s) && (if ok then Saturated(g) else s.failed != {})
  }

  predicate DispatchReached(f: Facility, caller: Option<nat>, policy: DispatchPolicy, work: nat, n: nat,
                            ok: bool, s: Signals)
    requires HasCapacity(f.core)
  {
    && PassReached(AdmitPrefix(f, work, s), caller, n, ok, s)
    && var g := Schedule(AdmitPrefix(f, work, s), caller, n);
    && (DispatchEnds(g, AdmittedRef(f.core), policy, ok, caller).Withdrawn? ==>
          WithdrawReached(g, AdmittedRef(f.core), s))
  }

  predicate CompleteReached(f: Facility, r: Ref, outcome: InvocationOutcome, s: Signals) {
    && Reached(s, Waiting(f.waiters, r))
    && ReclaimReached(f.(core := Publish(f.core, r, outcome)), r, s)
  }

  /** The waiters of a Task that shutdown takes out of the queue are notified, and so is the Worker of one
      that it asks to stop. */
  predicate SlotReached(f: Facility, i: nat, s: Signals) {
    Live(f.core, i) ==>
      && (f.core.records[i].body.state.Queued? ==> Reached(s, Waiting(f.waiters, RefOf(f.core, i))))
      && Reached(s, Runner(f.core, RefOf(f.core, i)))
  }

  ghost predicate ShutdownReached(f: Facility, k: nat, s: Signals) {
    forall i: nat :: k <= i ==> SlotReached(f, i, s)
  }

  // What the choices among Workers and policies come to.

  /** The executing Worker is served first when it is available, otherwise the lowest available one. */
  lemma {:induction false} NextWorkerIs(f: Facility, current: Option<nat>)
    requires AnyAvailable(f)
    ensures var w := NextWorker(f, current);
      && Available(f, w)
      && (current.Some? && Available(f, current.value) ==> w == current.value)
      && (!(current.Some? && Available(f, current.value)) ==> forall v: nat :: Available(f, v) ==> w <= v)
  {
    forall v: nat | Available(f, v) ensures f.first + FirstSet(f.workers) <= v { assert f.workers[v - f.first]; }
  }

  /** Only AbandonImmediately is ever refused, and exactly when no Worker is available or somebody queues. */
  lemma {:induction false} RefusedExactly(f: Facility, policy: DispatchPolicy)
    ensures Refused(f, policy) <==>
      policy == AbandonImmediately && ((forall w: nat :: !Available(f, w)) || f.core.queue != [])
  {
    if AnyAvailable(f) {
      assert Available(f, f.first + FirstSet(f.workers));
    } else {
      forall w: nat ensures !Available(f, w) { if IsWorker(f, w) { assert !f.workers[w - f.first]; } }
    }
  }
}
