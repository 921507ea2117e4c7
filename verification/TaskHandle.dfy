/** The move-only Task handle.  A handle owns the Task interest or it is empty; moving, releasing and
    taking the result leave it empty, so every admitted Task is released or taken at most once. */
module TaskHandle {
  import opened Registrations
  import opened TaskModel
  import opened TaskRuntime

  const NO_REF := Ref(0, false)

  /** Everything the operations of a facility may change. */
  ghost function Footprint(facility: TaskFacilityRuntime?): set<object> {
    if facility == null then {}
    else {facility.core.queue, facility.core.availability.bits, facility.scheduler.available.bits, facility.router}
         + set r | r in facility.core.records
  }

  /** The facility was f and has released the Task of r since. */
  ghost predicate Gave(facility: TaskFacilityRuntime, f: Facility, r: Ref)
    reads Footprint(facility), facility.waiters.slots, facility.admission.slots
  {
    facility.Valid() && facility.View() == ReleaseSection(f, r, facility.router.signals)
  }

  /** The facility was f and has given away the result of r, or refused to. */
  ghost predicate Took(facility: TaskFacilityRuntime, f: Facility, r: Ref, status: TakeStatus)
    reads Footprint(facility), facility.waiters.slots, facility.admission.slots
  {
    && facility.Valid()
    && facility.View() == if status.TakeSucceeded? then TakeSection(f, r, facility.router.signals) else f
  }

  class Task {
    var owner: TaskFacilityRuntime?
    var ref: Ref

    constructor (owner: TaskFacilityRuntime?, ref: Ref)
      ensures this.owner == owner && this.ref == ref
    {
      this.owner, this.ref := owner, ref;
    }

    predicate IsValid()
      reads `owner
    {
      owner != null
    }

    /** The facility is in order and the handle, unless empty, names an allocated record. */
    ghost predicate Usable()
      reads this, if owner == null then {} else {owner.core.queue, owner.core.availability.bits}
      reads if owner == null then [] else owner.core.records
    {
      owner != null ==> owner.Valid() && (IsCurrent(owner.core.View(), ref) ==> Live(owner.core.View(), ref.index))
    }

    /** Releases the owner interest when the handle still has one. */
    method Release()
      requires Usable()
      modifies this, Footprint(owner)
      ensures !IsValid()
      ensures old(owner) != null ==> Gave(old(owner), old(owner.View()), old(ref))
    {
      if owner == null { return; }
      var released := owner.ReleaseOwner(ref);
      owner, ref := null, NO_REF;
    }

    /** Move construction: the new handle has what the other one had, the other is empty. */
    constructor MoveFrom(other: Task)
      modifies other
      ensures owner == old(other.owner) && ref == old(other.ref) && other.owner == null
    {
      owner, ref := other.owner, other.ref;
      new;
      other.owner, other.ref := null, NO_REF;
    }

    /** Move assignment: what this handle had is released first; moving a handle to itself does nothing. */
    method MoveAssign(other: Task)
      requires Usable() && this !in Footprint(owner) && other !in Footprint(owner)
      modifies this, other, Footprint(owner)
      ensures other == this ==> owner == old(owner) && ref == old(ref)
      ensures other != this ==> owner == old(other.owner) && ref == old(other.ref) && other.owner == null
      ensures other != this && old(owner) != null ==> Gave(old(owner), old(owner.View()), old(ref))
    {
      if this == other { return; }
      Release();
      owner, ref := other.owner, other.ref;
      other.owner, other.ref := null, NO_REF;
    }

    method State() returns (state: TaskState)
      requires Usable()
      ensures owner == null ==> state == TaskCancelled
      ensures owner != null ==> state == StateOf(owner.View().core, ref)
    {
      if owner == null { return TaskCancelled; }
      state := owner.core.PublicState(ref);
    }

    method Cancel() returns (accepted: bool)
      requires Usable()
      modifies Footprint(owner)
      ensures owner == null ==> !accepted
      ensures owner != null ==> owner.Valid() && (accepted <==> CancelAccepted(old(owner.View()).core, ref))
      ensures owner != null ==> owner.View() == CancelSection(old(owner.View()), ref, owner.router.signals)
    {
      if owner == null { return false; }
      accepted := owner.Cancel(ref);
    }

    /** Success consumes the handle; any other outcome leaves it as it was. */
    method TakeResult() returns (status: TakeStatus, result: Option<nat>)
      requires Usable()
      modifies this, Footprint(owner)
      ensures status.TakeSucceeded? ==> !IsValid() && old(owner) != null
      ensures !status.TakeSucceeded? ==> owner == old(owner) && ref == old(ref)
      ensures old(owner) != null ==> status == TakeStatusOf(old(owner.View()).core, old(ref))
      ensures result == if old(owner) == null then None else ResultOf(old(owner.View()).core, old(ref))
      ensures !status.TakeSucceeded? ==> result == None
      ensures status.TakeSucceeded? ==>
        var was := old(owner.View()).core.records;
        old(ref.index) < |was|
        && (was[old(ref.index)].body.payload.Result? ==> result == Some(was[old(ref.index)].body.payload.value))
      ensures old(owner) != null ==> Took(old(owner), old(owner.View()), old(ref), status)
    {
      if owner == null { return TakeNotCompleted, None; }
      status, result := owner.TakeResult(ref);
      if status.TakeSucceeded? { owner, ref := null, NO_REF; }
    }
  }
}
