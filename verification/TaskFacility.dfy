/** The facility core as it is stored: the record table, the free set and the FIFO through the
    scratch links, changed in place.  Every operation is proved against its function on values. */
module TaskFacility {
  import opened Registrations
  import opened TaskModel
  import opened CompactIndex
  import opened TaskRecords
  import opened BoundedSets

  /** A record as its constructor leaves it. */
  ghost predicate IsFresh(r: TaskRecord, capacity: nat, contexts: nat)
    reads r
  {
    && r.Sized() && r.recordCapacity == capacity && r.contextCapacity == contexts
    && r.State() == Queued && !r.HasOwner() && !r.Phase() && r.payload == Empty && !r.bound
  }

  method NewRecords(capacity: nat, contexts: nat) returns (rs: seq<TaskRecord>)
    requires capacity <= MAX_CAPACITY && contexts <= MAX_CAPACITY
    ensures |rs| == capacity && Distinct(rs)
    ensures forall i :: 0 <= i < |rs| ==> fresh(rs[i]) && IsFresh(rs[i], capacity, contexts)
  {
    rs := [];
    while |rs| < capacity
      invariant |rs| <= capacity && Distinct(rs)
      invariant forall i :: 0 <= i < |rs| ==> fresh(rs[i]) && IsFresh(rs[i], capacity, contexts)
    {
      var r := new TaskRecord(capacity, contexts);
      rs := rs + [r];
    }
  }

  class TaskFacilityCore {
    const records: seq<TaskRecord>
    const contexts: nat
    const availability: BoundedIndexSet
    const queue: IntrusiveQueue

    /** A free record has no payload operations and is not running; a queued one is allocated and
        Queued. */
    ghost predicate RecordOk(i: nat)
      reads queue, records, availability.bits
    {
      i < |records| && i < availability.bits.Length ==>
        && (availability.bits[i] <==> !records[i].bound)
        && (availability.bits[i] ==> !records[i].State().Running? && !records[i].State().RunningCancelRequested?)
        && (i in queue.order ==> records[i].State().Queued? && !availability.bits[i])
    }

    ghost predicate Valid()
      reads queue, records, availability.bits
    {
      && queue.Chain(records, contexts)
      && availability.bits.Length == |records|
      && forall i: nat :: RecordOk(i)
    }

    ghost function RecordView(i: nat): Record
      requires Valid() && i < |records|
      reads queue, records, availability.bits
    {
      records[i].View(availability.bits[i])
    }

    ghost function View(): Core
      requires Valid()
      reads queue, records, availability.bits
    {
      Core(seq(|records|, i requires 0 <= i < |records| && Valid() reads queue, records, availability.bits
                            => RecordView(i)),
           queue.order)
    }

    /** Every statically provisioned record is free; it decodes as Queued, ownerless, Phase false. */
    constructor (capacity: nat, contexts: nat)
      requires capacity <= MAX_CAPACITY && contexts <= MAX_CAPACITY
      ensures Valid() && |records| == capacity && this.contexts == contexts
      ensures View() == Core(seq(capacity, i => Record(true, false, Body(Queued, false, None, Empty))), [])
      ensures fresh(availability.bits) && fresh(queue) && forall i :: 0 <= i < capacity ==> fresh(records[i])
    {
      var rs := NewRecords(capacity, contexts);
      records, this.contexts := rs, contexts;
      availability := new BoundedIndexSet(capacity);
      queue := new IntrusiveQueue();
      new;
      availability.SetAll();
    }

    // How a change of one record, or of the links alone, shows in the view.

    twostate predicate SameRecord(j: nat)
      requires j < |records|
      reads records
    {
      && records[j].value == old(records[j].value) && records[j].scratch == old(records[j].scratch)
      && records[j].payload == old(records[j].payload) && records[j].bound == old(records[j].bound)
    }

    /** Only record i, which is not queued, and its free bit have changed. */
    twostate lemma Rewrote(i: nat)
      requires old(Valid()) && i < |records| && i !in queue.order
      requires queue.head == old(queue.head) && queue.tail == old(queue.tail) && queue.order == old(queue.order)
      requires forall j: nat :: j < |records| && j != i ==>
        SameRecord(j) && availability.bits[j] == old(availability.bits[j])
      requires RecordOk(i)
      ensures Valid()
      ensures View() == old(View()).(records := old(View()).records[i := RecordView(i)])
    {
      forall j | 0 <= j < |records| && j in queue.order ensures Links(records)[j] == old(Links(records))[j] {
        assert SameRecord(j);
      }
      LinkedFrame(old(Links(records)), Links(records), NoLink(|records|, contexts), queue.head, queue.tail,
                  queue.order);
      forall j: nat ensures RecordOk(j) { assert old(RecordOk(j)); }
    }

    /** Only links have changed: scratch scalars of records whose Tasks are Queued. */
    twostate lemma Relinked(touched: seq<nat>)
      requires old(Valid()) && queue.Chain(records, contexts)
      requires forall j: nat :: j in queue.order ==> j in touched
      requires forall j: nat :: j in touched && j < |records| ==> records[j].State().Queued? && !availability.bits[j]
      requires forall j: nat :: j < |records| && j !in touched ==> Links(records)[j] == old(Links(records)[j])
      requires forall j: nat :: j < |records| ==>
        records[j].value == old(records[j].value) && records[j].payload == old(records[j].payload)
        && records[j].bound == old(records[j].bound) && availability.bits[j] == old(availability.bits[j])
      ensures Valid() && View() == old(View()).(queue := queue.order)
    {
      forall j: nat ensures RecordOk(j) { assert old(RecordOk(j)); }
      forall j: nat | j < |records| ensures RecordView(j) == old(RecordView(j)) { assert old(RecordOk(j)); }
    }

    method Unlist(i: nat)
      requires Valid() && i < |records|
      modifies queue, records`scratch
      ensures Valid() && View() == old(View()).(queue := Without(old(View()).queue, i))
      ensures forall j, k :: 0 <= j < k < |old(queue.order)| ==> old(queue.order)[j] != old(queue.order)[k]
    {
      WithoutMember(queue.order, i);
      var removed := queue.Remove(records, contexts, i);
      forall j: nat | j in old(queue.order) && j < |records|
        ensures records[j].State().Queued? && !availability.bits[j]
      {
        assert old(RecordOk(j));
      }
      Relinked(old(queue.order));
    }

    /** Takes a Queued Task out of the queue and ends it. */
    method EndQueued(i: nat)
      requires Valid() && i < |records| && !availability.bits[i] && records[i].State().Queued?
      modifies queue, records
      ensures Valid()
      ensures View() == Put(Unqueue(old(View()), i), i, CancelBody(old(View()).records[i].body))
      ensures records[i].State() == Cancelled && i !in queue.order
    {
      assert RecordOk(i);
      Unlist(i);
      WithoutMember(old(queue.order), i);
      label L:
      records[i].DestroyCallable();
      records[i].SetContext(None);
      records[i].SetState(Cancelled);
      Rewrote@L(i);
    }

    // Admission.

    method HasRecordCapacity() returns (any: bool)
      requires Valid()
      ensures any <==> HasCapacity(View())
    {
      FreeBits(View().records, availability.bits[..]);
      var found := availability.FindFirstSet();
      any := found.Some?;
    }

    /** Moves a callable into the lowest free record and appends it to the FIFO. */
    method Admit(work: nat) returns (admitted: Option<Ref>)
      requires Valid()
      modifies queue, records, availability.bits
      ensures Valid()
      ensures admitted == if HasCapacity(old(View())) then Some(AdmittedRef(old(View()))) else None
      ensures View() == if HasCapacity(old(View())) then TaskModel.Admit(old(View()), work) else old(View())
      ensures admitted.None? <==> forall j :: 0 <= j < |old(View()).records| ==> !old(View()).records[j].free
      ensures admitted.Some? ==>
        var i, was := admitted.value.index, old(View());
        && i < |was.records| && was.records[i].free && (forall j :: 0 <= j < i ==> !was.records[j].free)
        && admitted.value.phase != was.records[i].phase && View().queue == was.queue + [i]
        && View().records == was.records[i :=
             Record(false, admitted.value.phase, Body(Queued, true, None, Callable(work)))]
    {
      FreeBits(View().records, availability.bits[..]);
      var found := availability.FindFirstSet();
      if found.None? { return None; }
      var i := found.value;
      assert RecordOk(i);
      availability.bits[i] := false;
      records[i].InitializeQueued();
      records[i].payload := Callable(work);
      records[i].bound := true;
      Rewrote(i);
      List(i);
      return Some(Ref(i, records[i].Phase()));
    }

    method List(i: nat)
      requires Valid() && i < |records| && i !in queue.order
      requires records[i].State().Queued? && !availability.bits[i]
      modifies queue, records`scratch
      ensures Valid() && View() == old(View()).(queue := old(View()).queue + [i])
    {
      queue.Push(records, contexts, i);
      forall j: nat | j in queue.order && j < |records| ensures records[j].State().Queued? && !availability.bits[j] {
        assert old(RecordOk(j));
      }
      Relinked(queue.order);
    }

    // Worker claim and execution.

    /** Grants the oldest queued Task to a Worker context. */
    method ClaimNextForWorker(w: nat) returns (claimed: Option<Ref>)
      requires Valid() && w < contexts
      modifies queue, records
      ensures Valid()
      ensures CanClaim(old(View())) <==> old(View()).queue != []
      ensures claimed == if CanClaim(old(View())) then Some(RefOf(old(View()), old(View()).queue[0])) else None
      ensures View() == if CanClaim(old(View())) then Claim(old(View()), w) else old(View())
    {
      var popped := Unshift();
      if popped.None? { return None; }
      var i := popped.value;
      label L:
      records[i].SetContext(Some(w));
      records[i].SetState(Running);
      Rewrote@L(i);
      return Some(Ref(i, records[i].Phase()));
    }

    method Unshift() returns (popped: Option<nat>)
      requires Valid()
      modifies queue, records`scratch
      ensures Valid() && popped == At(old(View()).queue, 0)
      ensures popped.Some? ==> popped.value < |records| && popped.value !in queue.order
      ensures popped.Some? ==> !availability.bits[popped.value]
      ensures View() == old(View()).(queue := if popped.Some? then old(View()).queue[1..] else [])
    {
      if queue.order != [] { assert LinkOk(Links(records), NoLink(|records|, contexts), queue.order, 0); }
      popped := queue.Pop(records, contexts);
      forall j: nat | j in old(queue.order) && j < |records|
        ensures records[j].State().Queued? && !availability.bits[j]
      {
        assert old(RecordOk(j));
      }
      Relinked(old(queue.order));
    }

    /** The first record that runs on the given Worker context. */
    method AssignedTaskForContext(w: nat) returns (binding: Option<Ref>)
      requires Valid() && w < contexts
      ensures binding == Assigned(View(), w)
    {
      var k := 0;
      while k < |records|
        invariant k <= |records| && Assigned(View(), w) == AssignedFrom(View(), w, k)
      {
        assert RecordOk(k) && View().records[k] == RecordView(k);
        var state := records[k].State();
        if (state.Running? || state.RunningCancelRequested?) && records[k].CurrentContext() == Some(w) {
          return Some(Ref(k, records[k].Phase()));
        }
        k := k + 1;
      }
      return None;
    }

    /** Runs the payload of a record, outside the facility lock. */
    method Invoke(i: nat, outcome: InvocationOutcome, value: nat)
      requires Valid() && Live(View(), i)
      modifies records
      ensures Valid()
      ensures View() == TaskModel.Invoke(old(View()), RefOf(old(View()), i), outcome, value)
    {
      assert RecordOk(i) && View().records[i] == RecordView(i);
      records[i].Invoke(outcome, value);
      Touched(i);
    }

    /** A record may change while it stays in its place in the queue or out of it. */
    twostate lemma Touched(i: nat)
      requires old(Valid()) && i < |records|
      requires queue.head == old(queue.head) && queue.tail == old(queue.tail) && queue.order == old(queue.order)
      requires forall j: nat :: j < |records| && j != i ==> SameRecord(j)
      requires forall j: nat :: j < |records| ==> availability.bits[j] == old(availability.bits[j])
      requires records[i].scratch == old(records[i].scratch)
      requires RecordOk(i)
      ensures Valid()
      ensures View() == old(View()).(records := old(View()).records[i := RecordView(i)])
    {
      forall j | 0 <= j < |records| ensures Links(records)[j] == old(Links(records))[j] {
        if j != i { assert SameRecord(j); }
      }
      LinkedFrame(old(Links(records)), Links(records), NoLink(|records|, contexts), queue.head, queue.tail,
                  queue.order);
      forall j: nat ensures RecordOk(j) {
        if j != i && j < |records| { assert old(RecordOk(j)) && SameRecord(j); }
      }
      forall j: nat | j < |records| && j != i ensures RecordView(j) == old(RecordView(j)) { assert SameRecord(j); }
    }

    predicate IsCurrentIncarnation(r: Ref)
      requires Valid()
      reads queue, records, availability.bits
      ensures IsCurrentIncarnation(r) <==> IsCurrent(View(), r)
    {
      r.index < |records| && records[r.index].Phase() == r.phase
    }

    /** Publishes what an invocation came to; the caller is the Worker the Task was granted to. */
    method PublishInvocationOutcome(r: Ref, outcome: InvocationOutcome)
      requires Valid() && !IsQueued(View(), r) && (IsCurrent(View(), r) ==> Live(View(), r.index))
      modifies records
      ensures Valid() && View() == Publish(old(View()), r, outcome)
      ensures IsCurrent(old(View()), r) ==>
        var was, now := old(View()).records[r.index].body, View().records[r.index].body;
        && now.state == (if outcome.Finished? then Completed else Cancelled)
        && now.owner == was.owner && now.grant == was.grant
        && (was.owner || outcome.Abandoned? ==> now.payload == was.payload)
        && (!was.owner && outcome.Finished? && was.payload.Result? ==> now.payload == Empty)
    {
      if !IsCurrentIncarnation(r) { return; }
      var i := r.index;
      assert RecordOk(i) && View().records[i] == RecordView(i);
      if outcome.Finished? {
        if !records[i].HasOwner() { records[i].DestroyResult(); }
        records[i].SetState(Completed);
      } else {
        records[i].SetState(Cancelled);
      }
      Touched(i);
    }

    // Observation.

    method PublicState(r: Ref) returns (state: TaskState)
      requires Valid()
      ensures state == StateOf(View(), r)
      ensures !IsCurrent(View(), r) ==> state == TaskCancelled
      ensures IsCurrent(View(), r) ==>
        var b := View().records[r.index].body;
        && (state == TaskQueued <==> b.state.Queued?)
        && (state == TaskRunning <==> b.state.Running? || b.state.RunningCancelRequested?)
        && (state == TaskCompleted <==> b.state.Completed?) && (state == TaskCancelled <==> b.state.Cancelled?)
    {
      if !IsCurrentIncarnation(r) { return TaskCancelled; }
      assert View().records[r.index] == RecordView(r.index);
      match records[r.index].State()
      case Queued => return TaskQueued;
      case Running => return TaskRunning;
      case RunningCancelRequested => return TaskRunning;
      case Completed => return TaskCompleted;
      case Cancelled => return TaskCancelled;
    }

    method IsTerminal(r: Ref) returns (terminal: bool)
      requires Valid()
      ensures terminal <==> Terminated(View(), r)
    {
      var state := PublicState(r);
      terminal := state.TaskCompleted? || state.TaskCancelled?;
    }

    /** Whether the Task was ever granted; the scratch of an allocated Cancelled record still knows. */
    method HasWorkerGrant(r: Ref) returns (granted: bool)
      requires Valid() && (IsCurrent(View(), r) ==> Live(View(), r.index))
      ensures granted <==> Granted(View(), r)
    {
      if !IsCurrentIncarnation(r) { return false; }
      assert View().records[r.index] == RecordView(r.index);
      var state := records[r.index].State();
      if state.Queued? { return false; }
      if state.Cancelled? { return records[r.index].CurrentContext().Some?; }
      return true;
    }

    method IsCancellationRequested(r: Ref) returns (requested: bool)
      requires Valid()
      ensures requested <==> CancellationRequested(View(), r)
    {
      if !IsCurrentIncarnation(r) { return false; }
      assert View().records[r.index] == RecordView(r.index);
      return records[r.index].State().RunningCancelRequested?;
    }

    /** The Worker context of a running Task. */
    method ExecutionContextFor(r: Ref) returns (context: Option<nat>)
      requires Valid() && (IsCurrent(View(), r) ==> Live(View(), r.index))
      ensures context == if IsCurrent(View(), r) && IsRunning(View().records[r.index].body)
                         then View().records[r.index].body.grant else None
    {
      if !IsCurrentIncarnation(r) { return None; }
      assert View().records[r.index] == RecordView(r.index);
      var state := records[r.index].State();
      if !state.Running? && !state.RunningCancelRequested? { return None; }
      return records[r.index].CurrentContext();
    }

    method IsCancellationRequestedForContext(w: nat) returns (requested: bool)
      requires Valid() && w < contexts
      ensures requested <==> CancellationRequestedFor(View(), w)
    {
      var k := 0;
      while k < |records|
        invariant k <= |records|
        invariant forall i :: 0 <= i < k ==> !AsksAt(View(), i, w)
      {
        assert RecordOk(k) && View().records[k] == RecordView(k);
        if records[k].State().RunningCancelRequested? && records[k].CurrentContext() == Some(w) {
          assert AsksAt(View(), k, w);
          return true;
        }
        k := k + 1;
      }
      return false;
    }

    // Cancellation, release and result extraction.

    method Cancel(r: Ref) returns (accepted: bool, terminalPublished: bool)
      requires Valid() && (IsCurrent(View(), r) ==> Live(View(), r.index))
      modifies queue, records
      ensures Valid() && View() == TaskModel.Cancel(old(View()), r)
      ensures accepted <==> CancelAccepted(old(View()), r)
      ensures terminalPublished <==> IsQueued(old(View()), r)
    {
      if !IsCurrentIncarnation(r) { return false, false; }
      var i := r.index;
      assert RecordOk(i) && View().records[i] == RecordView(i);
      match records[i].State()
      case Queued =>
        EndQueued(i);
        return true, true;
      case Running =>
        var applied := records[i].CompareExchangeState(Running, RunningCancelRequested);
        Touched(i);
        return true, false;
      case RunningCancelRequested =>
        return true, false;
      case _ =>
        return false, false;
    }

    /** Gives up the owner interest; an abandoned Queued Task ends. */
    method ReleaseOwner(r: Ref) returns (terminalPublished: bool)
      requires Valid() && (IsCurrent(View(), r) ==> Live(View(), r.index))
      modifies queue, records
      ensures Valid() && View() == Release(old(View()), r)
      ensures terminalPublished <==> IsQueued(old(View()), r)
    {
      if !IsCurrentIncarnation(r) { return false; }
      var i := r.index;
      assert RecordOk(i) && View().records[i] == RecordView(i);
      terminalPublished := records[i].State().Queued?;
      if terminalPublished { EndQueued(i); }
      Disown(i);
    }

    /** What ReleaseOwner does to a record that is not Queued, or not any more. */
    method Disown(i: nat)
      requires Valid() && Live(View(), i) && i !in queue.order && !records[i].State().Queued?
      modifies records
      ensures Valid()
      ensures View() == Put(old(View()), i, ReleaseBody(old(View()).records[i].body))
    {
      assert RecordOk(i) && View().records[i] == RecordView(i);
      if records[i].State().Completed? { records[i].DestroyResult(); }
      records[i].ReleaseOwner();
      Touched(i);
    }

    /** Moves a completed result out and gives up the owner interest. */
    method TakeResult(r: Ref) returns (status: TakeStatus, result: Option<nat>)
      requires Valid() && (IsCurrent(View(), r) ==> Live(View(), r.index))
      modifies records
      ensures Valid() && View() == Take(old(View()), r)
      ensures status == TakeStatusOf(old(View()), r)
      ensures result == ResultOf(old(View()), r)
      ensures status.TakeSucceeded? <==> IsCurrent(old(View()), r) && old(View()).records[r.index].body.state.Completed?
      ensures status.TakeCancelled? <==> IsCurrent(old(View()), r) && old(View()).records[r.index].body.state.Cancelled?
      ensures !status.TakeSucceeded? ==> result == None
      ensures status.TakeSucceeded? && old(View()).records[r.index].body.payload.Result? ==>
        && result == Some(old(View()).records[r.index].body.payload.value)
        && View().records[r.index].body.payload == Empty && !View().records[r.index].body.owner
    {
      if !IsCurrentIncarnation(r) { return TakeNotCompleted, None; }
      var i := r.index;
      assert RecordOk(i) && View().records[i] == RecordView(i);
      match records[i].State()
      case Completed =>
        result := records[i].MoveResult();
        records[i].ReleaseOwner();
        Touched(i);
        return TakeSucceeded, result;
      case Cancelled => return TakeCancelled, None;
      case _ => return TakeNotCompleted, None;
    }

    // Reclamation.

    method IsOwnerlessTerminal(r: Ref) returns (eligible: bool)
      requires Valid()
      ensures eligible <==> OwnerlessTerminal(View(), r)
    {
      if !IsCurrentIncarnation(r) { return false; }
      assert View().records[r.index] == RecordView(r.index);
      var state := records[r.index].State();
      return !records[r.index].HasOwner() && (state.Completed? || state.Cancelled?);
    }

    /** Returns an ownerless terminal record to the free set. */
    method Reclaim(r: Ref) returns (reclaimed: bool)
      requires Valid()
      modifies records, availability.bits
      ensures Valid() && View() == TaskModel.Reclaim(old(View()), r)
      ensures reclaimed <==> OwnerlessTerminal(old(View()), r) && !old(View()).records[r.index].free
    {
      var eligible := IsOwnerlessTerminal(r);
      if !eligible || availability.bits[r.index] { return false; }
      var i := r.index;
      assert RecordOk(i) && View().records[i] == RecordView(i);
      records[i].bound := false;
      records[i].SetQueueNext(None);
      availability.bits[i] := true;
      Rewrote(i);
      return true;
    }

    // Inspection.

    /** Whether any admitted Task is still queued or running. */
    method HasExecutionWork() returns (any: bool)
      requires Valid()
      ensures any <==> TaskModel.HasExecutionWork(View())
    {
      var k := 0;
      while k < |records|
        invariant k <= |records|
        invariant forall i :: 0 <= i < k ==> View().records[i].free || TaskModel.IsTerminal(View().records[i].body)
      {
        assert View().records[k] == RecordView(k);
        var state := records[k].State();
        if !availability.bits[k] && !state.Completed? && !state.Cancelled? { return true; }
        k := k + 1;
      }
      return false;
    }

    /** Counts the queued Tasks by walking the links. */
    method QueuedTasks() returns (n: nat)
      requires Valid()
      ensures n == |View().queue|
    {
      n := queue.Length(records, contexts);
    }
  }

  lemma {:induction false} FreeBits(rs: seq<Record>, bits: seq<bool>)
    requires |rs| == |bits| && forall i :: 0 <= i < |rs| ==> rs[i].free == bits[i]
    ensures FirstFree(rs) == FirstSet(bits)
  {
  }
}
