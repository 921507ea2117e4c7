/** The Worker trampoline: one turn of its loop, from the look at the shutdown predicate to the end of
    the completion.  Between the sections of a turn other contexts may act; TaskRuns interleaves them,
    this class is the turn nobody interrupts. */
module TaskWorker {
  import opened Registrations
  import opened TaskModel
  import opened TaskRuntime

  datatype TurnEnd = Returns | Waits | Worked(r: Ref)

  class TaskWorkerExecutionContext {
    const facility: TaskFacilityRuntime
    const contextIndex: nat

    constructor (facility: TaskFacilityRuntime, contextIndex: nat)
      ensures this.facility == facility && this.contextIndex == contextIndex
    {
      this.facility, this.contextIndex := facility, contextIndex;
    }

    /** What the loop did: it looks for shutdown before it looks for work, so a granted Task can stay
        where it is; an assigned Task is invoked and completed; otherwise the Worker goes to its signal. */
    method Turn(shutdown: bool, outcome: InvocationOutcome, value: nat)
      returns (end: TurnEnd, ghost n: nat, ghost ok: bool)
      requires facility.Valid() && facility.scheduler.IsWorkerContext(contextIndex)
      modifies facility.core.queue, facility.core.records, facility.core.availability.bits
      modifies facility.scheduler.available.bits, facility.router
      ensures facility.Valid() && Notified(old(facility.router.signals), facility.router.signals)
      ensures end == EndOf(old(facility.View()), contextIndex, shutdown)
      ensures end == Returns <==> shutdown
      ensures end == Waits <==> !shutdown && Assigned(old(facility.View()).core, contextIndex).None?
      ensures !end.Worked? ==> facility.View() == old(facility.View())
      ensures end.Worked? ==> Live(old(facility.View()).core, end.r.index)
      ensures end.Worked? ==>
        CompletedPass(Ran(old(facility.View()), end.r, outcome, value), contextIndex, end.r, outcome,
                      Some(contextIndex), n, ok, facility.View())
    {
      n, ok := 0, true;
      if shutdown { return Returns, 0, true; }
      var binding := facility.AssignedTaskForContext(contextIndex);
      if binding.None? { return Waits, 0, true; }
      facility.Invoke(binding.value, outcome, value);
      var completed;
      completed, n, ok := facility.CompleteWorkerTask(contextIndex, binding.value, outcome, Some(contextIndex));
      end := Worked(binding.value);
    }
  }

  function EndOf(f: Facility, w: nat, shutdown: bool): TurnEnd {
    if shutdown then Returns else if Assigned(f.core, w).None? then Waits else Worked(Assigned(f.core, w).value)
  }

  /** The facility once the callable of r has run. */
  function Ran(f: Facility, r: Ref, outcome: InvocationOutcome, value: nat): Facility
    requires r.index < |f.core.records|
  {
    f.(core := Invoke(f.core, r, outcome, value))
  }
}
