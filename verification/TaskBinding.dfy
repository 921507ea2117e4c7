/** The two halves meet: in every reachable state the preconditions that the runtime class puts on its
    callers hold, and what its methods ensure is exactly a step of the interleaved runs.  h is the
    facility when the method has returned. */
module TaskBinding {
  import opened Registrations
  import opened TaskModel
  import opened TaskLedger
  import opened TaskProtocol
  import opened TaskSteps
  import opened TaskRuns
  import opened TaskGuarantees
  import R = TaskRuntime

  ghost predicate Callable(f: Facility, r: Ref) { IsCurrent(f.core, r) ==> Live(f.core, r.index) }

  /** Live handles, waiting contexts and Workers may call every operation on what they hold, and a
      Worker never completes a Task that is still queued. */
  lemma {:induction false} CallersMeetThePreconditions(s: System)
    requires Reachable(s)
    ensures forall id :: id in s.tokens ==> Callable(s.f, s.tokens[id])
    ensures forall c :: 0 <= c < |s.ops| && s.ops[c].Waiter? ==>
      Callable(s.f, s.ops[c].ref) && s.ops[c].slot < |s.f.waiters|
    ensures forall w :: 0 <= w < |s.roles| && s.roles[w].Returned? ==>
      Callable(s.f, s.roles[w].ref) && !IsQueued(s.f.core, s.roles[w].ref) && IsWorker(s.f, w)
  {
    ReachableHolds(s);
    forall id | id in s.tokens ensures Callable(s.f, s.tokens[id]) { TokenKnown(s, id); }
    forall c | 0 <= c < |s.ops| && s.ops[c].Waiter?
      ensures Callable(s.f, s.ops[c].ref) && s.ops[c].slot < |s.f.waiters|
    {
      assert OpOk(s.f.core, s.ids, s.f.waiters, s.tokens, s.unreturned, s.ops, c);
    }
    forall w | 0 <= w < |s.roles| && s.roles[w].Returned?
      ensures Callable(s.f, s.roles[w].ref) && !IsQueued(s.f.core, s.roles[w].ref) && IsWorker(s.f, w)
    {
      InvokingKnown(s, w);
    }
  }

  lemma {:induction false} DispatchIsAStep(s: System, caller: Option<nat>, policy: DispatchPolicy, work: nat,
      n: nat, ok: bool, h: Facility, attempt: R.Attempt)
    requires Inv(s) && CallerMayCall(s, caller) && Notified(s.f.signals, h.signals)
    requires !Refused(s.f, policy) && R.Dispatched(s.f, caller, policy, work, n, ok, h, attempt)
    ensures var a := Call(Dispatch(caller, policy, work, n, ok, h.signals));
      CanAct(s, a) && Act(s, a).f == h
  {
  }

  lemma {:induction false} HandleCallsAreSteps(s: System, id: nat, h: Facility)
    requires Inv(s) && id in s.tokens && id !in s.unreturned && Notified(s.f.signals, h.signals)
    ensures CancelReached(s.f, s.tokens[id], h.signals) && h == CancelSection(s.f, s.tokens[id], h.signals) ==>
      CanAct(s, Call(CancelTask(id, h.signals))) && Act(s, Call(CancelTask(id, h.signals))).f == h
    ensures ReleaseReached(s.f, s.tokens[id], h.signals) && h == ReleaseSection(s.f, s.tokens[id], h.signals) ==>
      CanAct(s, Call(ReleaseTask(id, h.signals))) && Act(s, Call(ReleaseTask(id, h.signals))).f == h
    ensures (&& IsCompleted(s.f.core, s.tokens[id]) && TakeReached(s.f, s.tokens[id], h.signals)
             && h == TakeSection(s.f, s.tokens[id], h.signals)) ==>
      CanAct(s, Call(TakeResult(id, h.signals))) && Act(s, Call(TakeResult(id, h.signals))).f == h
  {
  }

  lemma {:induction false} WorkerCallsAreSteps(s: System, w: nat, n: nat, ok: bool, h: Facility)
    requires Inv(s) && w < |s.roles| && Notified(s.f.signals, h.signals)
    ensures IsWorker(s.f, w) && s.roles[w].Unlisted? && R.PassFrom(MarkAvailable(s.f, w), Some(w), n, ok, h) ==>
      CanAct(s, Work(WorkerStart(w, n, ok, h.signals))) && Act(s, Work(WorkerStart(w, n, ok, h.signals))).f == h
    ensures (&& s.roles[w].Returned?
             && R.CompletedPass(s.f, w, s.roles[w].ref, s.roles[w].outcome, Some(w), n, ok, h)) ==>
      CanAct(s, Work(WorkerComplete(w, n, ok, h.signals))) && Act(s, Work(WorkerComplete(w, n, ok, h.signals))).f == h
  {
  }

  lemma {:induction false} RechecksAreSteps(s: System, c: nat, leave: bool, h: Facility)
    requires Inv(s) && c < |s.ops| && s.ops[c].Waiter? && Notified(s.f.signals, h.signals)
    ensures var op := s.ops[c];
      op.kind.ForTerminal?
      && (Terminated(s.f.core, op.ref) || leave ==> UnregisterReached(s.f, op.slot, op.ref, h.signals))
      && h == TaskWaitRecheck(s.f, op.slot, op.ref, leave, h.signals) ==>
      CanAct(s, Wait(RecheckTask(c, leave, h.signals))) && Act(s, Wait(RecheckTask(c, leave, h.signals))).f == h
    ensures var op := s.ops[c];
      op.kind.ForGrant? && (Granted(s.f.core, op.ref) ==> UnregisterReached(s.f, op.slot, op.ref, h.signals))
      && (!Granted(s.f.core, op.ref) && !leave ==> !CancellationRequestedFor(s.f.core, c))
      && (!Granted(s.f.core, op.ref) && leave ==>
            WithdrawReached(s.f.(waiters := Unregister(s.f.waiters, op.slot)), op.ref, h.signals))
      && h == GrantWaitRecheck(s.f, op.slot, op.ref, leave, h.signals) ==>
      CanAct(s, Wait(RecheckGrant(c, leave, h.signals))) && Act(s, Wait(RecheckGrant(c, leave, h.signals))).f == h
  {
  }

  /** A context that may register always finds room, so the entries never withdraw anything. */
  lemma {:induction false} EntriesAreSteps(s: System, c: nat, id: nat, h: Facility)
    requires Inv(s) && c < |s.ops|
    ensures CanEnterTaskWait(s, c, id) && h == TaskWaitEntry(s.f, c, s.tokens[id]) ==>
      CanAct(s, Wait(EnterTaskWait(c, id))) && Act(s, Wait(EnterTaskWait(c, id))).f == h
    ensures s.ops[c].Entering? && h == GrantWaitEntry(s.f, c, s.ops[c].ref) ==>
      CanAct(s, Wait(EnterGrantWait(c))) && Act(s, Wait(EnterGrantWait(c))).f == h
    ensures MayCall(s, c) && h == CapacityWaitEntry(s.f, c) ==>
      CanAct(s, Wait(EnterCapacityWait(c))) && Act(s, Wait(EnterCapacityWait(c))).f == h
  {
  }

  lemma {:induction false} CapacityRecheckIsAStep(s: System, c: nat, leave: bool, h: Facility)
    requires Inv(s) && CanRecheckCapacity(s, c, leave) && h == CapacityWaitRecheck(s.f, s.ops[c].slot, leave)
    ensures var a := Wait(RecheckCapacity(c, leave));
      CanAct(s, a) && Act(s, a).f == h
  {
  }

  /** The trampoline of Worker w has what it was told: a Task to run, or nothing. */
  ghost predicate TakesUp(t: System, w: nat, binding: Option<Ref>) {
    && w < |t.roles|
    && match binding
       case None => t.roles[w].Parked?
       case Some(r) => t.roles[w].Invoking? && t.roles[w].ref == r
  }

  /** What AssignedTaskForContext answers is what the trampoline takes up, and what Invoke leaves behind is
      what the callable's return leaves. */
  lemma {:induction false} TurnsAreSteps(s: System, w: nat, outcome: InvocationOutcome, value: nat)
    requires Inv(s) && w < |s.roles|
    ensures CanLook(s, w) ==>
      CanAct(s, Work(WorkerLook(w))) && TakesUp(Act(s, Work(WorkerLook(w))), w, Assigned(s.f.core, w))
    ensures CanReturn(s, w) && s.roles[w].ref.index < |s.f.core.records| ==>
      CanAct(s, Work(CallableReturn(w, outcome, value)))
      && Act(s, Work(CallableReturn(w, outcome, value))).f
         == s.f.(core := Invoke(s.f.core, s.roles[w].ref, outcome, value))
  {
  }

  lemma {:induction false} ShutdownIsAStep(s: System, h: Facility)
    requires Inv(s) && Notified(s.f.signals, h.signals)
    requires ShutdownReached(s.f, 0, h.signals) && Reached(h.signals, Waiting(s.f.admission, ()))
    requires h == ShutdownSection(s.f, h.signals)
    ensures CanAct(s, Call(BeginShutdown(h.signals))) && Act(s, Call(BeginShutdown(h.signals))).f == h
  {
    forall i: nat ensures SlotReached(s.f.(signals := h.signals), i, h.signals) {
      assert SlotReached(s.f, i, h.signals);
    }
  }
}
