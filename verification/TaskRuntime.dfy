/** The facility runtime: every mutex-protected section as a method over the stored core, the two
    registration sets, the Worker availability bits and the signals.  Each is proved against the
    section function that the interleaved runs are built from, together with whom it has notified. */
module TaskRuntime {
  import opened Registrations
  import opened TaskModel
  import opened CompactIndex
  import opened TaskRecords
  import opened BoundedSets
  import opened WaitRegistrations
  import opened WorkerLeases
  import opened TaskFacility

  // ---------------------------------------------------------------- scheduling passes, one grant at a time

  lemma {:induction false} ScheduleSnoc(f: Facility, current: Option<nat>, n: nat)
    requires CanSchedule(f, current, n) && CanGrant(Schedule(f, current, n))
    ensures CanSchedule(f, current, n + 1)
    ensures var g := Schedule(f, current, n); Schedule(f, current, n + 1) == GrantNext(g, NextWorker(g, current))
    decreases n
  {
    if n > 0 {
      ScheduleSnoc(GrantNext(f, NextWorker(f, current)), current, n - 1);
    } else {
      var h := GrantNext(f, NextWorker(f, current));
      assert CanSchedule(h, current, 0) && Schedule(h, current, 0) == h;
    }
  }

  lemma {:induction false} ReachedSnoc(f: Facility, current: Option<nat>, n: nat, s: Signals)
    requires CanSchedule(f, current, n) && ScheduleReached(f, current, n, s) && CanGrant(Schedule(f, current, n))
    requires var g := Schedule(f, current, n);
      && (current == Some(NextWorker(g, current)) || NextWorker(g, current) in s.latched)
      && Reached(s, Waiting(g.waiters, RefOf(g.core, g.core.queue[0])))
    ensures CanSchedule(f, current, n + 1) && ScheduleReached(f, current, n + 1, s)
    decreases n
  {
    ScheduleSnoc(f, current, n);
    if n > 0 {
      ReachedSnoc(GrantNext(f, NextWorker(f, current)), current, n - 1, s);
    } else {
      var h := GrantNext(f, NextWorker(f, current));
      assert CanSchedule(h, current, 0) && ScheduleReached(h, current, 0, s);
    }
  }

  /** Further notifications undo nothing. */
  lemma {:induction false} ReachedLater(f: Facility, current: Option<nat>, n: nat, s: Signals, t: Signals)
    requires CanSchedule(f, current, n) && ScheduleReached(f, current, n, s) && Notified(s, t)
    ensures ScheduleReached(f, current, n, t)
    decreases n
  {
    if n > 0 { ReachedLater(GrantNext(f, NextWorker(f, current)), current, n - 1, s, t); }
  }

  /** The round's Worker was the executing one or was woken, and the granted Task's waiters know. */
  predicate RoundReached(f: Facility, current: Option<nat>, s: Signals)
    requires CanGrant(f)
  {
    && (current == Some(NextWorker(f, current)) || NextWorker(f, current) in s.latched)
    && Reached(s, Waiting(f.waiters, RefOf(f.core, f.core.queue[0])))
  }

  /** g is what n rounds have made of f, with the signals as they are now. */
  predicate PassSoFar(f: Facility, current: Option<nat>, n: nat, ok: bool, g: Facility) {
    && CanSchedule(f, current, n) && ScheduleReached(f, current, n, g.signals)
    && g == Schedule(f, current, n).(signals := g.signals)
    && Notified(f.signals, g.signals) && Told(f.signals, g.signals, ok)
  }

  /** A whole scheduling pass of n grants. */
  predicate Passed(f: Facility, current: Option<nat>, n: nat, ok: bool, h: Facility) {
    && Notified(f.signals, h.signals) && Told(f.signals, h.signals, ok)
    && PassReached(f, current, n, ok, h.signals)
    && h == Schedule(f, current, n).(signals := h.signals)
  }

  lemma {:induction false} PassGoesOn(f: Facility, current: Option<nat>, n: nat, ok: bool, g: Facility, h: Facility,
      told: bool)
    requires PassSoFar(f, current, n, ok, g) && Round(g, current, h, true, told)
    ensures PassSoFar(f, current, n + 1, ok && told, h)
    ensures |h.core.queue| < |g.core.queue|
  {
    ReachedLater(f, current, n, g.signals, h.signals);
    ScheduleSnoc(f, current, n);
    ReachedSnoc(f, current, n, h.signals);
  }

  lemma {:induction false} PassEnds(f: Facility, current: Option<nat>, n: nat, ok: bool, g: Facility, h: Facility,
      told: bool)
    requires PassSoFar(f, current, n, ok, g) && Round(g, current, h, false, told)
    ensures Passed(f, current, n, ok && told, h)
  {
    ReachedLater(f, current, n, g.signals, h.signals);
    SignalsDoNotSchedule(Schedule(f, current, n), g, current, h.signals);
  }

  /** Whether a pass stops depends on the Workers and the queue alone. */
  lemma {:induction false} SignalsDoNotSchedule(s: Facility, g: Facility, current: Option<nat>, sig: Signals)
    requires g == s.(signals := g.signals)
    ensures Saturated(g) <==> Saturated(s)
    ensures ScheduleStops(g, current, sig) <==> ScheduleStops(s, current, sig)
  {
  }

  /** What one round of the scheduling loop did to the facility g. */
  predicate Round(g: Facility, current: Option<nat>, h: Facility, granted: bool, ok: bool) {
    && Notified(g.signals, h.signals) && Told(g.signals, h.signals, ok)
    && (if granted
        then CanGrant(g) && RoundReached(g, current, h.signals)
             && h == GrantNext(g, NextWorker(g, current)).(signals := h.signals)
        else h == g.(signals := h.signals) && ScheduleStops(g, current, h.signals) && (ok ==> Saturated(g)))
  }

  lemma {:induction false} ReclaimIgnoresSignals(f: Facility, r: Ref, t: Signals, s: Signals)
    ensures TaskModel.ReclaimIfQuiescent(f.(signals := t), r).(signals := s)
            == TaskModel.ReclaimIfQuiescent(f.(signals := s), r)
    ensures ReclaimReached(f.(signals := t), r, s) <==> ReclaimReached(f, r, s)
  {
  }

  /** A Worker reserved for the round. */
  function Reserve(g: Facility, w: nat): Facility
    requires IsWorker(g, w)
  {
    g.(workers := g.workers[w - g.first := false])
  }

  lemma {:induction false} RoundIdle(g: Facility, current: Option<nat>)
    requires !AnyAvailable(g)
    ensures Round(g, current, g, false, true)
  {
  }

  lemma {:induction false} RoundWithoutGrant(g: Facility, current: Option<nat>, h: Facility, ok: bool)
    requires AnyAvailable(g) && Notified(g.signals, h.signals)
    requires h == MarkAvailable(Reserve(g, NextWorker(g, current)).(signals := h.signals), NextWorker(g, current))
    requires if ok then g.core.queue == [] && h.signals.failed == g.signals.failed
             else current != Some(NextWorker(g, current)) && NextWorker(g, current) in h.signals.failed
    ensures Round(g, current, h, false, ok)
  {
  }

  lemma {:induction false} RoundWithGrant(g: Facility, current: Option<nat>, r: Facility, h: Facility, ok: bool)
    requires AnyAvailable(g) && CanClaim(r.core)
    requires Notified(g.signals, r.signals) && Notified(r.signals, h.signals) && Told(g.signals, h.signals, ok)
    requires r == Reserve(g, NextWorker(g, current)).(signals := r.signals)
    requires current == Some(NextWorker(g, current)) || NextWorker(g, current) in r.signals.latched
    requires h == r.(core := Claim(r.core, NextWorker(g, current)), signals := h.signals)
    requires Reached(h.signals, Waiting(r.waiters, RefOf(r.core, r.core.queue[0])))
    ensures Round(g, current, h, true, ok)
  {
  }

  lemma {:induction false} AvailableIsAny(f: Facility, w: nat)
    requires Available(f, w)
    ensures AnyAvailable(f)
  {
  }

  // ---------------------------------------------------------------- dispatch

  /** Signals play no part in what a pass grants. */
  lemma {:induction false} PassIgnoresSignals(f: Facility, t: Signals, current: Option<nat>, n: nat, s: Signals)
    requires CanSchedule(f, current, n)
    ensures var h := f.(signals := t);
      && CanSchedule(h, current, n)
      && Schedule(h, current, n) == Schedule(f, current, n).(signals := t)
      && (ScheduleReached(h, current, n, s) <==> ScheduleReached(f, current, n, s))
    decreases n
  {
    if n > 0 {
      var h, w := f.(signals := t), NextWorker(f, current);
      assert CanGrant(h) && NextWorker(h, current) == w;
      assert GrantNext(h, w) == GrantNext(f, w).(signals := t);
      PassIgnoresSignals(GrantNext(f, w), t, current, n - 1, s);
    }
  }

  lemma {:induction false} ScheduleKeepsLive(f: Facility, current: Option<nat>, n: nat, i: nat)
    requires CanSchedule(f, current, n) && Live(f.core, i)
    ensures Live(Schedule(f, current, n).core, i)
    decreases n
  {
    if n > 0 { ScheduleKeepsLive(GrantNext(f, NextWorker(f, current)), current, n - 1, i); }
  }

  /** h is what a pass of n grants makes of f, whose signals are those at the end of the pass. */
  predicate PassFrom(f: Facility, current: Option<nat>, n: nat, ok: bool, h: Facility) {
    && PassReached(f.(signals := h.signals), current, n, ok, h.signals)
    && h == Schedule(f.(signals := h.signals), current, n)
  }

  lemma {:induction false} PassedFrom(f: Facility, current: Option<nat>, n: nat, ok: bool, h: Facility)
    requires Passed(f, current, n, ok, h)
    ensures PassFrom(f, current, n, ok, h)
  {
    PassIgnoresSignals(f, h.signals, current, n, h.signals);
    SignalsDoNotSchedule(Schedule(f, current, n), h, current, h.signals);
  }

  /** h is f after the completion of a Task on Worker w and the pass that follows. */
  predicate CompletedPass(f: Facility, w: nat, r: Ref, outcome: InvocationOutcome, current: Option<nat>, n: nat,
                          ok: bool, h: Facility)
  {
    && CompleteReached(f, r, outcome, h.signals)
    && PassReached(CompletePrefix(f, w, r, outcome, h.signals), current, n, ok, h.signals)
    && h == Schedule(CompletePrefix(f, w, r, outcome, h.signals), current, n)
  }

  lemma {:induction false} PassAfterCompletion(f: Facility, w: nat, r: Ref, outcome: InvocationOutcome, s: Signals,
      current: Option<nat>, n: nat, ok: bool, h: Facility)
    requires CompleteReached(f, r, outcome, s) && Notified(s, h.signals)
    requires Passed(CompletePrefix(f, w, r, outcome, s), current, n, ok, h)
    ensures CompletedPass(f, w, r, outcome, current, n, ok, h)
  {
    PassedFrom(CompletePrefix(f, w, r, outcome, s), current, n, ok, h);
    ReclaimIgnoresSignals(f.(core := Publish(f.core, r, outcome)), r, s, h.signals);
    assert CompletePrefix(f, w, r, outcome, s).(signals := h.signals) == CompletePrefix(f, w, r, outcome, h.signals);
  }

  /** What one attempt at a dispatch came to: the caller is to wait for capacity, is told that it failed, or
      its Task was admitted and the section ended as it did. */
  datatype Attempt = AwaitCapacity | Rejected(status: DispatchStatus) | Ended(ref: Ref, end: DispatchEnd)

  predicate Dispatched(f: Facility, caller: Option<nat>, policy: DispatchPolicy, work: nat, n: nat, ok: bool,
                       h: Facility, attempt: Attempt)
  {
    && HasCapacity(f.core) && DispatchReached(f, caller, policy, work, n, ok, h.signals)
    && h == DispatchSection(f, caller, policy, work, n, ok, h.signals)
    && attempt == Ended(AdmittedRef(f.core),
         DispatchEnds(Schedule(AdmitPrefix(f, work, h.signals), caller, n), AdmittedRef(f.core), policy, ok, caller))
  }

  /** h is f after admission and a scheduling pass. */
  predicate AdmittedPass(f: Facility, caller: Option<nat>, work: nat, n: nat, ok: bool, h: Facility) {
    && HasCapacity(f.core) && PassReached(AdmitPrefix(f, work, h.signals), caller, n, ok, h.signals)
    && h == Schedule(AdmitPrefix(f, work, h.signals), caller, n)
    && Live(h.core, AdmittedRef(f.core).index)
  }

  lemma {:induction false} PassAfterAdmission(f: Facility, caller: Option<nat>, work: nat, n: nat, ok: bool,
      h: Facility)
    requires HasCapacity(f.core) && Passed(f.(core := Admit(f.core, work)), caller, n, ok, h)
    ensures AdmittedPass(f, caller, work, n, ok, h)
  {
    var f1 := f.(core := Admit(f.core, work));
    assert AdmitPrefix(f, work, h.signals) == f1.(signals := h.signals);
    PassedFrom(f1, caller, n, ok, h);
    ScheduleKeepsLive(f1, caller, n, AdmittedRef(f.core).index);
  }

  /** Later notifications leave a finished pass as it is. */
  lemma {:induction false} PassStands(f: Facility, caller: Option<nat>, work: nat, n: nat, ok: bool, g: Facility,
      t: Signals)
    requires AdmittedPass(f, caller, work, n, ok, g) && Notified(g.signals, t)
    ensures PassReached(AdmitPrefix(f, work, t), caller, n, ok, t)
    ensures Schedule(AdmitPrefix(f, work, t), caller, n) == g.(signals := t)
  {
    var f1 := AdmitPrefix(f, work, g.signals);
    assert AdmitPrefix(f, work, t) == f1.(signals := t);
    PassIgnoresSignals(f1, t, caller, n, t);
    ReachedLater(f1, caller, n, g.signals, t);
    SignalsDoNotSchedule(g, g.(signals := t), caller, t);
  }

  lemma {:induction false} DispatchEnded(f: Facility, caller: Option<nat>, policy: DispatchPolicy, work: nat, n: nat,
      ok: bool, g: Facility, h: Facility, attempt: Attempt)
    requires AdmittedPass(f, caller, work, n, ok, g) && Notified(g.signals, h.signals)
    requires attempt == Ended(AdmittedRef(f.core), DispatchEnds(g, AdmittedRef(f.core), policy, ok, caller))
    requires if attempt.end.Withdrawn?
             then h == Withdraw(g, attempt.ref).(signals := h.signals) && WithdrawReached(g, attempt.ref, h.signals)
             else h == g
    ensures Dispatched(f, caller, policy, work, n, ok, h, attempt)
  {
    PassStands(f, caller, work, n, ok, g, h.signals);
    ReclaimIgnoresSignals(g.(core := Release(g.core, attempt.ref)), attempt.ref, g.signals, h.signals);
  }

  // ---------------------------------------------------------------- waiting and shutdown

  /** How the first section of a wait ends. */
  datatype WaitEntry = OverAlready | Registered(slot: nat) | NoRoom

  /** g is f with the slots below k cancelled; the waiters of those that were Queued are told. */
  ghost predicate CancelledUpTo(f: Facility, k: nat, g: Facility) {
    && k <= |f.core.records| && |g.core.records| == |f.core.records|
    && g == f.(core := g.core, signals := g.signals)
    && CancelFrom(f.core, 0) == CancelFrom(g.core, k)
    && (forall i :: k <= i < |f.core.records| ==> g.core.records[i] == f.core.records[i])
    && (forall i: nat :: i < k ==> SlotReached(f, i, g.signals))
  }

  lemma {:induction false} CancelledOneMore(f: Facility, k: nat, g: Facility, h: Facility)
    requires CancelledUpTo(f, k, g) && k < |f.core.records| && Notified(g.signals, h.signals)
    requires h == if g.core.records[k].free then g
                  else g.(core := Cancel(g.core, RefOf(g.core, k)), signals := h.signals)
    requires SlotReached(g, k, h.signals)
    ensures CancelledUpTo(f, k + 1, h)
  {
    forall i: nat | i < k + 1 ensures SlotReached(f, i, h.signals) {
      if i < k { assert SlotReached(f, i, g.signals); }
    }
  }

  lemma {:induction false} CancelledAll(f: Facility, g: Facility, s: Signals)
    requires CancelledUpTo(f, |f.core.records|, g) && Notified(g.signals, s)
    ensures ShutdownReached(f, 0, s) && g.(signals := s) == ShutdownSection(f, s)
  {
    forall i: nat ensures SlotReached(f, i, s) {
      if i < |f.core.records| { assert SlotReached(f, i, g.signals); }
    }
  }

  predicate Runs(c: Core, r: Ref) {
    r.index < |c.records| && r == RefOf(c, r.index) && IsRunning(c.records[r.index].body)
  }

  lemma {:induction false} AssignedRuns(c: Core, w: nat, k: nat)
    requires k <= |c.records|
    ensures var binding := AssignedFrom(c, w, k);
      binding.Some? ==> Runs(c, binding.value)
    decreases |c.records| - k
  {
    if k < |c.records| { AssignedRuns(c, w, k + 1); }
  }

  class TaskFacilityRuntime {
    const core: TaskFacilityCore
    const waiters: RegistrationSet<Ref>
    const admission: RegistrationSet<()>
    const scheduler: WorkerLeaseScheduler
    const router: ManagedContextRouter

    constructor (capacity: nat, workers: nat, first: nat, contexts: nat, router: ManagedContextRouter)
      requires capacity <= MAX_CAPACITY && contexts <= MAX_CAPACITY && first + workers <= contexts
      ensures Valid() && this.router == router
    {
      this.router := router;
      core := new TaskFacilityCore(capacity, contexts);
      waiters := new RegistrationSet<Ref>(contexts);
      admission := new RegistrationSet<()>(contexts);
      scheduler := new WorkerLeaseScheduler(workers, first);
    }

    ghost predicate Valid()
      reads core.queue, core.records, core.availability.bits
    {
      && core.Valid()
      && core.availability.bits != scheduler.available.bits
      && scheduler.first + scheduler.available.bits.Length <= core.contexts
      && waiters.slots.Length == core.contexts && admission.slots.Length == core.contexts
    }

    ghost function View(): Facility
      requires Valid()
      reads core.queue, core.records, core.availability.bits
      reads waiters.slots, admission.slots, scheduler.available.bits, router
    {
      Facility(core.View(), waiters.slots[..], admission.slots[..], scheduler.available.bits[..], scheduler.first,
               router.signals)
    }

    // ------------------------------------------------------------ scheduling

    /** Reserves the executing Worker, or else the lowest available one. */
    method ClaimWorker(current: Option<nat>) returns (claimed: Option<nat>)
      requires Valid()
      modifies scheduler.available.bits
      ensures Valid()
      ensures claimed == if AnyAvailable(old(View())) then Some(NextWorker(old(View()), current)) else None
      ensures View() == if claimed.None? then old(View())
        else old(View()).(workers := old(View()).workers[claimed.value - scheduler.first := false])
    {
      ghost var f := View();
      var specific := false;
      if current.Some? { specific := scheduler.TryClaimSpecific(current.value); }
      if specific {
        AvailableIsAny(f, current.value);
        claimed := current;
      } else {
        assert current.Some? ==> !Available(f, current.value);
        claimed := scheduler.TryClaimAvailable();
      }
      OnlyWorkers();
    }

    /** Gives a Worker reserved by ClaimWorker back. */
    method ReturnWorker(w: nat)
      requires Valid() && scheduler.IsWorkerContext(w)
      modifies scheduler.available.bits
      ensures Valid() && View() == MarkAvailable(old(View()), w)
    {
      var inRange := scheduler.MarkAvailable(w);
      OnlyWorkers();
    }

    twostate lemma OnlyWorkers()
      requires old(Valid()) && unchanged(core.queue, core.records, core.availability.bits)
      requires unchanged(waiters.slots, admission.slots, router)
      ensures Valid() && View() == old(View()).(workers := scheduler.available.bits[..])
    {
    }

    twostate lemma OnlySignals()
      requires old(Valid()) && unchanged(core.queue, core.records, core.availability.bits)
      requires unchanged(waiters.slots, admission.slots, scheduler.available.bits)
      ensures Valid() && View() == old(View()).(signals := router.signals)
    {
    }

    twostate lemma OnlyCore()
      requires old(Valid()) && core.Valid()
      requires unchanged(waiters.slots, admission.slots, scheduler.available.bits, router)
      ensures Valid() && View() == old(View()).(core := core.View())
    {
    }

    /** Wakes the contexts registered for the Task. */
    method WakeMatchingWaiters(r: Ref) returns (signaled: bool)
      requires Valid()
      modifies router
      ensures Valid() && Notified(old(router.signals), router.signals)
      ensures View() == old(View()).(signals := router.signals)
      ensures Reached(router.signals, Waiting(old(View()).waiters, r))
      ensures Told(old(router.signals), router.signals, signaled)
    {
      signaled := waiters.WakeMatching(r, router);
      OnlySignals();
    }

    /** The oldest queued Task goes to a reserved, awake Worker, and its waiters are told. */
    method GrantNext(w: nat) returns (signaled: bool)
      requires Valid() && scheduler.IsWorkerContext(w) && View().core.queue != []
      modifies core.queue, core.records, router
      ensures CanClaim(old(View()).core)
      ensures Valid() && Notified(old(router.signals), router.signals)
      ensures View() == old(View()).(core := Claim(old(View()).core, w), signals := router.signals)
      ensures Reached(router.signals, Waiting(old(View()).waiters, RefOf(old(View()).core, old(View()).core.queue[0])))
      ensures Told(old(router.signals), router.signals, signaled)
    {
      var granted := core.ClaimNextForWorker(w);
      OnlyCore();
      signaled := WakeMatchingWaiters(granted.value);
    }

    /** One round of the scheduling loop. */
    method ScheduleOne(current: Option<nat>) returns (granted: bool, signaled: bool)
      requires Valid()
      modifies core.queue, core.records, scheduler.available.bits, router
      ensures Valid() && Round(old(View()), current, View(), granted, signaled)
    {
      ghost var g := View();
      var claimed := ClaimWorker(current);
      if claimed.None? {
        RoundIdle(g, current);
        return false, true;
      }
      granted, signaled := Serve(g, current, claimed.value);
    }

    /** The part of a round in which a Worker is reserved. */
    method Serve(ghost g: Facility, current: Option<nat>, w: nat) returns (granted: bool, signaled: bool)
      requires Valid() && AnyAvailable(g) && w == NextWorker(g, current) && View() == Reserve(g, w)
      modifies core.queue, core.records, scheduler.available.bits, router
      ensures Valid() && Round(g, current, View(), granted, signaled)
    {
      assert View().first == g.first && |View().workers| == |g.workers| && IsWorker(g, w);
      assert View().first == scheduler.first && |View().workers| == scheduler.available.bits.Length;
      assert scheduler.IsWorkerContext(w);
      var queued := core.QueuedTasks();
      var woken := true;
      if queued != 0 { woken := WakeUnlessCurrent(current, w); }
      if queued == 0 || !woken {
        ReturnWorker(w);
        RoundWithoutGrant(g, current, View(), queued == 0);
        return false, queued == 0;
      }
      ghost var r := View();
      signaled := GrantNext(w);
      granted := true;
      RoundWithGrant(g, current, r, View(), signaled);
    }

    /** The executing Worker needs no wake. */
    method WakeUnlessCurrent(current: Option<nat>, w: nat) returns (woken: bool)
      requires Valid()
      modifies router
      ensures Valid() && Notified(old(router.signals), router.signals)
      ensures View() == old(View()).(signals := router.signals)
      ensures if woken then current == Some(w) || w in router.signals.latched
              else current != Some(w) && w in router.signals.failed
      ensures Told(old(router.signals), router.signals, woken)
    {
      woken := true;
      if current != Some(w) { woken := WakeWorker(w); }
    }

    method WakeWorker(w: nat) returns (signaled: bool)
      requires Valid()
      modifies router
      ensures Valid() && Notified(old(router.signals), router.signals)
      ensures View() == old(View()).(signals := router.signals)
      ensures if signaled then w in router.signals.latched else w in router.signals.failed
      ensures Told(old(router.signals), router.signals, signaled)
    {
      signaled := router.Wake(w);
      OnlySignals();
    }

    /** Grants queued Tasks to available Workers, oldest first, until nothing is left to grant or a
        Worker cannot be woken. */
    method ScheduleAvailableWorkers(current: Option<nat>) returns (signaled: bool, ghost n: nat)
      requires Valid()
      modifies core.queue, core.records, scheduler.available.bits, router
      ensures Valid() && Passed(old(View()), current, n, signaled, View())
    {
      ghost var f := View();
      signaled, n := true, 0;
      while true
        invariant Valid() && PassSoFar(f, current, n, signaled, View())
        decreases |View().core.queue|
      {
        ghost var g := View();
        var granted, told := ScheduleOne(current);
        if granted {
          PassGoesOn(f, current, n, signaled, g, View(), told);
          signaled, n := signaled && told, n + 1;
        } else {
          PassEnds(f, current, n, signaled, g, View(), told);
          signaled := signaled && told;
          return;
        }
      }
    }

    // ------------------------------------------------------------ reclamation

    method WakeAdmissionWaiters() returns (signaled: bool)
      requires Valid()
      modifies router
      ensures Valid() && Notified(old(router.signals), router.signals)
      ensures View() == old(View()).(signals := router.signals)
      ensures Reached(router.signals, Waiting(old(View()).admission, ()))
      ensures Told(old(router.signals), router.signals, signaled)
    {
      signaled := admission.WakeMatching((), router);
      OnlySignals();
    }

    /** Frees an ownerless terminal record nobody waits for, and announces the capacity. */
    method ReclaimIfQuiescent(r: Ref) returns (reclaimed: bool, signaled: bool)
      requires Valid()
      modifies core.records, core.availability.bits, router
      ensures Valid() && Notified(old(router.signals), router.signals)
      ensures reclaimed <==> Reclaimable(old(View()), r)
      ensures !reclaimed ==> signaled
      ensures ReclaimReached(old(View()), r, router.signals)
      ensures Told(old(router.signals), router.signals, signaled)
      ensures View() == TaskModel.ReclaimIfQuiescent(old(View()), r).(signals := router.signals)
    {
      var eligible := core.IsOwnerlessTerminal(r);
      var matching := waiters.MatchingCount(r);
      if !eligible || matching != 0 { return false, true; }
      reclaimed := core.Reclaim(r);
      OnlyCore();
      if !reclaimed { return false, true; }
      signaled := WakeAdmissionWaiters();
    }

    /** Removes a registration and reclaims the record it may have been holding. */
    method UnregisterWaiter(slot: nat, r: Ref)
      requires Valid() && slot < waiters.slots.Length
      modifies waiters.slots, core.records, core.availability.bits, router
      ensures Valid() && Notified(old(router.signals), router.signals)
      ensures UnregisterReached(old(View()), slot, r, router.signals)
      ensures View() == UnregisterSection(old(View()), slot, r, router.signals)
    {
      ghost var f := View();
      waiters.Unregister(slot);
      assert View() == f.(waiters := Unregister(f.waiters, slot));
      var reclaimed, signaled := ReclaimIfQuiescent(r);
      ReclaimIgnoresSignals(f.(waiters := Unregister(f.waiters, slot)), r, f.signals, router.signals);
    }

    /** Gives up a Task that cannot be returned to the caller. */
    method WithdrawUnreturnedDispatch(r: Ref)
      requires Valid() && (IsCurrent(View().core, r) ==> Live(View().core, r.index))
      modifies core.queue, core.records, core.availability.bits, router
      ensures Valid() && Notified(old(router.signals), router.signals)
      ensures WithdrawReached(old(View()), r, router.signals)
      ensures View() == Withdraw(old(View()), r).(signals := router.signals)
    {
      var published := core.ReleaseOwner(r);
      OnlyCore();
      var reclaimed, signaled := ReclaimIfQuiescent(r);
    }

    // ------------------------------------------------------------ handle operations

    method Cancel(r: Ref) returns (accepted: bool)
      requires Valid() && (IsCurrent(View().core, r) ==> Live(View().core, r.index))
      modifies core.queue, core.records, core.availability.bits, router
      ensures Valid() && Notified(old(router.signals), router.signals)
      ensures accepted <==> CancelAccepted(old(View()).core, r)
      ensures CancelReached(old(View()), r, router.signals)
      ensures View() == CancelSection(old(View()), r, router.signals)
    {
      ghost var f := View();
      var running := core.ExecutionContextFor(r);
      var published;
      accepted, published := core.Cancel(r);
      OnlyCore();
      var signaled := true;
      if published {
        signaled := WakeMatchingWaiters(r);
      } else if accepted && running.Some? {
        signaled := WakeWorker(running.value);
      }
      ghost var t := router.signals;
      var reclaimed, told := ReclaimIfQuiescent(r);
      ReclaimIgnoresSignals(f.(core := TaskModel.Cancel(f.core, r)), r, t, router.signals);
    }

    method ReleaseOwner(r: Ref) returns (released: bool)
      requires Valid() && (IsCurrent(View().core, r) ==> Live(View().core, r.index))
      modifies core.queue, core.records, core.availability.bits, router
      ensures Valid() && Notified(old(router.signals), router.signals)
      ensures ReleaseReached(old(View()), r, router.signals)
      ensures Told(old(router.signals), router.signals, released)
      ensures View() == ReleaseSection(old(View()), r, router.signals)
    {
      ghost var f := View();
      var published := core.ReleaseOwner(r);
      OnlyCore();
      var signaled := true;
      if published { signaled := WakeMatchingWaiters(r); }
      ghost var t := router.signals;
      var reclaimed, told := ReclaimIfQuiescent(r);
      ReclaimIgnoresSignals(f.(core := Release(f.core, r)), r, t, router.signals);
      released := signaled && told;
    }

    method TakeResult(r: Ref) returns (status: TakeStatus, result: Option<nat>)
      requires Valid() && (IsCurrent(View().core, r) ==> Live(View().core, r.index))
      modifies core.records, core.availability.bits, router
      ensures Valid() && Notified(old(router.signals), router.signals)
      ensures status == TakeStatusOf(old(View()).core, r)
      ensures result == ResultOf(old(View()).core, r)
      ensures !status.TakeSucceeded? ==> result == None
      ensures status.TakeSucceeded? && old(View()).core.records[r.index].body.payload.Result? ==>
        result == Some(old(View()).core.records[r.index].body.payload.value)
      ensures status.TakeSucceeded? ==> TakeReached(old(View()), r, router.signals)
      ensures View() == if status.TakeSucceeded? then TakeSection(old(View()), r, router.signals) else old(View())
    {
      ghost var f := View();
      status, result := core.TakeResult(r);
      OnlyCore();
      if status.TakeSucceeded? {
        var reclaimed, told := ReclaimIfQuiescent(r);
        ReclaimIgnoresSignals(f.(core := Take(f.core, r)), r, f.signals, router.signals);
      }
    }

    // ------------------------------------------------------------ dispatch

    /** Admits the callable into the lowest free record and schedules. */
    method AdmitAndSchedule(caller: Option<nat>, work: nat) returns (r: Ref, signaled: bool, ghost n: nat)
      requires Valid() && HasCapacity(View().core)
      modifies core.queue, core.records, core.availability.bits, scheduler.available.bits, router
      ensures Valid() && Notified(old(router.signals), router.signals)
      ensures r == AdmittedRef(old(View()).core)
      ensures AdmittedPass(old(View()), caller, work, n, signaled, View())
    {
      ghost var f := View();
      var admitted := core.Admit(work);
      r := admitted.value;
      OnlyCore();
      signaled, n := ScheduleAvailableWorkers(caller);
      PassAfterAdmission(f, caller, work, n, signaled, View());
    }

    /** Decides what becomes of the admitted Task; one that cannot be returned is withdrawn. */
    method Conclude(ghost f: Facility, caller: Option<nat>, policy: DispatchPolicy, ghost work: nat, ghost n: nat,
                    signaled: bool, r: Ref) returns (end: DispatchEnd)
      requires Valid() && HasCapacity(f.core) && r == AdmittedRef(f.core)
      requires AdmittedPass(f, caller, work, n, signaled, View())
      modifies core.queue, core.records, core.availability.bits, router
      ensures Valid() && Notified(old(router.signals), router.signals)
      ensures Dispatched(f, caller, policy, work, n, signaled, View(), Ended(r, end))
    {
      ghost var g := View();
      var granted := core.HasWorkerGrant(r);
      end := if !signaled && !granted then Withdrawn(Interrupted)
             else if policy.AbandonImmediately? && !granted then Withdrawn(Unavailable)
             else if !policy.QueueWithTimeout? || granted then HandleReturned
             else if caller.None? then Withdrawn(Interrupted)
             else MustWait;
      if end.Withdrawn? { WithdrawUnreturnedDispatch(r); }
      DispatchEnded(f, caller, policy, work, n, signaled, g, View(), Ended(r, end));
    }

    /** Whether the policy refuses to queue now. */
    method IsRefused(policy: DispatchPolicy) returns (refused: bool)
      requires Valid()
      ensures refused <==> Refused(View(), policy)
    {
      if !policy.AbandonImmediately? { return false; }
      var free := scheduler.IsAnyAvailable();
      var queued := core.QueuedTasks();
      refused := !free || queued != 0;
    }

    /** The locked part of a dispatch: admission, scheduling and the decision what becomes of the
        Task.  ok is the outcome of the pass of n grants. */
    method DispatchAttempt(caller: Option<nat>, policy: DispatchPolicy, work: nat)
      returns (attempt: Attempt, ok: bool, ghost n: nat)
      requires Valid()
      modifies core.queue, core.records, core.availability.bits, scheduler.available.bits, router
      ensures Valid() && Notified(old(router.signals), router.signals)
      ensures attempt == AwaitCapacity <==>
        !HasCapacity(old(View()).core) && policy != AbandonImmediately && caller.Some?
      ensures attempt == Rejected(Interrupted) <==>
        !HasCapacity(old(View()).core) && policy != AbandonImmediately && caller.None?
      ensures var f := old(View());
        attempt == Rejected(Unavailable) <==>
          (policy == AbandonImmediately
           && (!HasCapacity(f.core) || (forall w: nat :: !Available(f, w)) || f.core.queue != []))
      ensures attempt.Rejected? ==> attempt.status.Interrupted? || attempt.status.Unavailable?
      ensures attempt.Ended? ==> Dispatched(old(View()), caller, policy, work, n, ok, View(), attempt)
      ensures !attempt.Ended? ==> View() == old(View())
    {
      ghost var f := View();
      ok, n := true, 0;
      var capacity := core.HasRecordCapacity();
      RefusedExactly(f, policy);
      if !capacity {
        if policy.AbandonImmediately? { return Rejected(Unavailable), true, 0; }
        if caller.None? { return Rejected(Interrupted), true, 0; }
        return AwaitCapacity, true, 0;
      }
      var refused := IsRefused(policy);
      if refused { return Rejected(Unavailable), true, 0; }
      var r;
      r, ok, n := AdmitAndSchedule(caller, work);
      var end := Conclude(f, caller, policy, work, n, ok, r);
      attempt := Ended(r, end);
    }

    // ------------------------------------------------------------ Workers

    /** A started Worker enters the available set and queued work is granted. */
    method WorkerBecameAvailable(w: nat, current: Option<nat>) returns (inRange: bool, ok: bool, ghost n: nat)
      requires Valid()
      modifies core.queue, core.records, scheduler.available.bits, router
      ensures Valid() && Notified(old(router.signals), router.signals)
      ensures inRange <==> IsWorker(old(View()), w)
      ensures if inRange then PassFrom(MarkAvailable(old(View()), w), current, n, ok, View()) else View() == old(View())
    {
      if !scheduler.IsWorkerContext(w) { return false, true, 0; }
      ReturnWorker(w);
      ghost var f := View();
      ok, n := ScheduleAvailableWorkers(current);
      PassedFrom(f, current, n, ok, View());
      inRange := true;
    }

    /** The Task granted to a Worker; its record is allocated and no longer queued. */
    method AssignedTaskForContext(w: nat) returns (binding: Option<Ref>)
      requires Valid() && scheduler.IsWorkerContext(w)
      ensures binding == Assigned(View().core, w)
      ensures binding.Some? ==> Live(View().core, binding.value.index) && IsCurrent(View().core, binding.value)
      ensures binding.Some? ==> IsRunning(View().core.records[binding.value.index].body)
    {
      binding := core.AssignedTaskForContext(w);
      AssignedRuns(View().core, w, 0);
      if binding.Some? {
        assert core.RecordOk(binding.value.index);
        assert core.RecordView(binding.value.index) == View().core.records[binding.value.index];
      }
    }

    /** Runs a granted Task's payload; no lock is held meanwhile. */
    method Invoke(r: Ref, outcome: InvocationOutcome, value: nat)
      requires Valid() && Live(View().core, r.index) && IsCurrent(View().core, r)
      modifies core.records
      ensures Valid()
      ensures View() == old(View()).(core := TaskModel.Invoke(old(View()).core, r, outcome, value))
    {
      core.Invoke(r.index, outcome, value);
      OnlyCore();
    }

    /** Publishes, tells the waiters and reclaims; what CompleteWorkerTask does to the Task. */
    method FinishTask(r: Ref, outcome: InvocationOutcome) returns (signaled: bool)
      requires Valid() && !IsQueued(View().core, r) && (IsCurrent(View().core, r) ==> Live(View().core, r.index))
      modifies core.records, core.availability.bits, router
      ensures Valid() && Notified(old(router.signals), router.signals)
      ensures CompleteReached(old(View()), r, outcome, router.signals)
      ensures Told(old(router.signals), router.signals, signaled)
      ensures View() == TaskModel.ReclaimIfQuiescent(
        old(View()).(core := Publish(old(View()).core, r, outcome), signals := router.signals), r)
    {
      ghost var f := View();
      core.PublishInvocationOutcome(r, outcome);
      OnlyCore();
      signaled := WakeMatchingWaiters(r);
      ghost var t := router.signals;
      var reclaimed, told := ReclaimIfQuiescent(r);
      ReclaimIgnoresSignals(f.(core := Publish(f.core, r, outcome)), r, t, router.signals);
      signaled := signaled && (!reclaimed || told);
    }

    /** A Worker publishes its Task's outcome, becomes available and takes the next Task, all under one
        lock. */
    method CompleteWorkerTask(w: nat, r: Ref, outcome: InvocationOutcome, current: Option<nat>)
      returns (completed: bool, ghost n: nat, ghost ok: bool)
      requires Valid() && scheduler.IsWorkerContext(w)
      requires !IsQueued(View().core, r) && (IsCurrent(View().core, r) ==> Live(View().core, r.index))
      modifies core.queue, core.records, core.availability.bits, scheduler.available.bits, router
      ensures Valid() && Notified(old(router.signals), router.signals)
      ensures CompletedPass(old(View()), w, r, outcome, current, n, ok, View())
      ensures Told(old(router.signals), router.signals, completed)
    {
      ghost var f := View();
      var signaled := FinishTask(r, outcome);
      ghost var s := router.signals;
      ReturnWorker(w);
      var scheduled;
      scheduled, n := ScheduleAvailableWorkers(current);
      PassAfterCompletion(f, w, r, outcome, s, current, n, scheduled, View());
      completed, ok := signaled && scheduled, scheduled;
    }

    // ------------------------------------------------------------ waiting

    /** Looks at the Task and registers under one lock.  A second look before the lock is given back, here
        and in the two entries below, would find what the first one found. */
    method EnterTaskWait(c: nat, r: Ref) returns (entry: WaitEntry)
      requires Valid()
      modifies waiters.slots
      ensures Valid() && View() == TaskWaitEntry(old(View()), c, r)
      ensures entry == if Terminated(old(View()).core, r) then OverAlready
                       else if FirstInactive(old(View()).waiters) < waiters.slots.Length
                       then Registered(FirstInactive(old(View()).waiters)) else NoRoom
    {
      var terminal := core.IsTerminal(r);
      if terminal { return OverAlready; }
      ghost var f := View();
      var index := waiters.Register(r, c);
      assert View() == f.(waiters := Register(f.waiters, r, c));
      return if index.Some? then Registered(index.value) else NoRoom;
    }

    /** One look at the Task after the wait came back. */
    method RecheckTaskWait(slot: nat, r: Ref, why: Cause) returns (answer: Option<TaskWaitResult>)
      requires Valid() && slot < waiters.slots.Length
      modifies waiters.slots, core.records, core.availability.bits, router
      ensures Valid() && Notified(old(router.signals), router.signals)
      ensures answer == Some(WaitFinished) <==> Terminated(old(View()).core, r)
      ensures answer == Some(WaitInterrupted) <==>
        !Terminated(old(View()).core, r) && (why.interrupted || why.failed)
      ensures answer == Some(WaitTimedOut) <==>
        !Terminated(old(View()).core, r) && !why.interrupted && !why.failed && why.expired
      ensures answer.Some? ==> UnregisterReached(old(View()), slot, r, router.signals)
      ensures View() == TaskWaitRecheck(old(View()), slot, r, Leaves(why), router.signals)
    {
      var finished := core.IsTerminal(r);
      if !finished && !Leaves(why) { return None; }
      UnregisterWaiter(slot, r);
      answer := Some(if finished then WaitFinished
                     else if why.interrupted || why.failed then WaitInterrupted else WaitTimedOut);
    }

    /** The dispatch call registers for the grant, or withdraws its Task when there is no room. */
    method EnterGrantWait(c: nat, r: Ref) returns (entry: WaitEntry)
      requires Valid() && (IsCurrent(View().core, r) ==> Live(View().core, r.index))
      modifies waiters.slots, core.queue, core.records, core.availability.bits, router
      ensures Valid() && Notified(old(router.signals), router.signals)
      ensures entry == if Granted(old(View()).core, r) then OverAlready
                       else if FirstInactive(old(View()).waiters) < waiters.slots.Length
                       then Registered(FirstInactive(old(View()).waiters)) else NoRoom
      ensures View() == GrantWaitEntry(old(View()), c, r).(signals := router.signals)
      ensures !entry.NoRoom? ==> router.signals == old(router.signals)
    {
      var granted := core.HasWorkerGrant(r);
      if granted { return OverAlready; }
      ghost var f := View();
      var index := waiters.Register(r, c);
      assert View() == f.(waiters := Register(f.waiters, r, c));
      if index.Some? { return Registered(index.value); }
      assert View() == f;
      WithdrawUnreturnedDispatch(r);
      return NoRoom;
    }

    /** One look at the grant after the wait came back. */
    method RecheckGrantWait(slot: nat, r: Ref, why: Cause) returns (answer: Option<DispatchStatus>)
      requires Valid() && slot < waiters.slots.Length
      requires IsCurrent(View().core, r) ==> Live(View().core, r.index)
      modifies waiters.slots, core.queue, core.records, core.availability.bits, router
      ensures Valid() && Notified(old(router.signals), router.signals)
      ensures answer == Some(Succeeded) <==> Granted(old(View()).core, r)
      ensures answer == Some(Interrupted) <==> !Granted(old(View()).core, r) && (why.interrupted || why.failed)
      ensures answer == Some(TimedOut) <==>
        !Granted(old(View()).core, r) && !why.interrupted && !why.failed && why.expired
      ensures answer != Some(Unavailable)
      ensures Granted(old(View()).core, r) ==> UnregisterReached(old(View()), slot, r, router.signals)
      ensures !Granted(old(View()).core, r) && Leaves(why) ==>
        WithdrawReached(old(View()).(waiters := Unregister(old(View()).waiters, slot)), r, router.signals)
      ensures View() == GrantWaitRecheck(old(View()), slot, r, Leaves(why), router.signals)
    {
      var granted := core.HasWorkerGrant(r);
      if granted {
        UnregisterWaiter(slot, r);
        return Some(Succeeded);
      }
      if !Leaves(why) { return None; }
      AbandonGrantWait(slot, r);
      answer := Some(if why.interrupted || why.failed then Interrupted else TimedOut);
    }

    /** Drops the registration and the Task together. */
    method AbandonGrantWait(slot: nat, r: Ref)
      requires Valid() && slot < waiters.slots.Length
      requires IsCurrent(View().core, r) ==> Live(View().core, r.index)
      modifies waiters.slots, core.queue, core.records, core.availability.bits, router
      ensures Valid() && Notified(old(router.signals), router.signals)
      ensures WithdrawReached(old(View()).(waiters := Unregister(old(View()).waiters, slot)), r, router.signals)
      ensures View() ==
        Withdraw(old(View()).(waiters := Unregister(old(View()).waiters, slot), signals := router.signals), r)
    {
      ghost var f := View();
      waiters.Unregister(slot);
      ghost var f1 := f.(waiters := Unregister(f.waiters, slot));
      assert View() == f1;
      WithdrawUnreturnedDispatch(r);
      ReclaimIgnoresSignals(f1.(core := Release(f.core, r)), r, f.signals, router.signals);
    }

    method EnterCapacityWait(c: nat) returns (entry: WaitEntry)
      requires Valid()
      modifies admission.slots
      ensures Valid() && View() == CapacityWaitEntry(old(View()), c)
      ensures entry == if HasCapacity(old(View()).core) then OverAlready
                       else if FirstInactive(old(View()).admission) < admission.slots.Length
                       then Registered(FirstInactive(old(View()).admission)) else NoRoom
    {
      var capacity := core.HasRecordCapacity();
      if capacity { return OverAlready; }
      ghost var f := View();
      var index := admission.Register((), c);
      assert View() == f.(admission := Register(f.admission, (), c));
      return if index.Some? then Registered(index.value) else NoRoom;
    }

    method RecheckCapacityWait(slot: nat, why: Cause) returns (answer: Option<DispatchStatus>)
      requires Valid() && slot < admission.slots.Length
      modifies admission.slots
      ensures Valid() && View() == CapacityWaitRecheck(old(View()), slot, Leaves(why))
      ensures answer == Some(Succeeded) <==> HasCapacity(old(View()).core)
      ensures answer == Some(Interrupted) <==> !HasCapacity(old(View()).core) && (why.interrupted || why.failed)
      ensures answer == Some(TimedOut) <==>
        !HasCapacity(old(View()).core) && !why.interrupted && !why.failed && why.expired
      ensures answer != Some(Unavailable)
    {
      var capacity := core.HasRecordCapacity();
      if !capacity && !Leaves(why) { return None; }
      ghost var f := View();
      admission.Unregister(slot);
      assert View() == f.(admission := Unregister(f.admission, slot));
      answer := Some(if capacity then Succeeded
                     else if why.interrupted || why.failed then Interrupted else TimedOut);
    }

    // ------------------------------------------------------------ shutdown

    /** Cancels one allocated Task and wakes whoever that concerns. */
    method CancelForShutdown(k: nat) returns (signaled: bool)
      requires Valid() && k < |core.records| && Live(View().core, k)
      modifies core.queue, core.records, router
      ensures Valid() && Notified(old(router.signals), router.signals)
      ensures SlotReached(old(View()), k, router.signals)
      ensures Told(old(router.signals), router.signals, signaled)
      ensures View() == old(View()).(core := TaskModel.Cancel(old(View()).core, RefOf(old(View()).core, k)),
                                     signals := router.signals)
    {
      var r := Ref(k, core.records[k].Phase());
      assert core.RecordView(k) == View().core.records[k];
      var context := core.ExecutionContextFor(r);
      var accepted, published := core.Cancel(r);
      OnlyCore();
      signaled := true;
      if published {
        signaled := WakeMatchingWaiters(r);
      } else if accepted && context.Some? {
        signaled := WakeWorker(context.value);
      }
    }

    /** Cancels every allocated Task, then tells everybody who waits for capacity. */
    method BeginShutdownCancellation() returns (applied: bool)
      requires Valid()
      modifies core.queue, core.records, router
      ensures Valid() && Notified(old(router.signals), router.signals)
      ensures ShutdownReached(old(View()), 0, router.signals)
      ensures Reached(router.signals, Waiting(old(View()).admission, ()))
      ensures Told(old(router.signals), router.signals, applied)
      ensures View() == ShutdownSection(old(View()), router.signals)
    {
      ghost var f := View();
      applied := true;
      var k := 0;
      while k < |core.records|
        invariant k <= |core.records| && Valid() && Notified(f.signals, router.signals)
        invariant Told(f.signals, router.signals, applied)
        invariant CancelledUpTo(f, k, View())
      {
        ghost var g := View();
        if !core.availability.bits[k] {
          var told := CancelForShutdown(k);
          applied := applied && told;
        }
        CancelledOneMore(f, k, g, View());
        k := k + 1;
      }
      ghost var g := View();
      var signaled := WakeAdmissionWaiters();
      applied := applied && signaled;
      CancelledAll(f, g, router.signals);
    }

    /** Whether no Task is queued or running. */
    method IsExecutionQuiescent() returns (quiescent: bool)
      requires Valid()
      ensures quiescent <==> !HasExecutionWork(View().core)
    {
      var work := core.HasExecutionWork();
      quiescent := !work;
    }
  }
}
