/** The promises of the Task facility, each for every state a run can reach. */
module TaskGuarantees {
  import opened Registrations
  import opened TaskModel
  import opened TaskLedger
  import opened TaskProtocol
  import opened TaskSteps
  import opened TaskRest
  import opened TaskInterrupts
  import opened TaskRuns

  /** s is where some run of a fresh facility of the given capacities has come. */
  ghost predicate ReachedFrom(records: nat, workers: nat, first: nat, contexts: nat, s: System) {
    first + workers <= contexts && LeadsTo(Init(records, workers, first, contexts), s)
  }

  ghost predicate Reachable(s: System) {
    exists records, workers, first, contexts :: ReachedFrom(records, workers, first, contexts, s)
  }

  lemma {:induction false} ReachableHolds(s: System)
    requires Reachable(s)
    ensures Inv(s) && Rest(s) && Alert(s)
  {
    var records, workers, first, contexts :| ReachedFrom(records, workers, first, contexts, s);
    var init := Init(records, workers, first, contexts);
    var states, acts :| RunFromTo(states, acts, init, s);
    InitInv(records, workers, first, contexts);
    RunRests(states, acts, |acts|, s);
  }

  /** There is a run: a fresh facility of any capacities is reachable. */
  lemma {:induction false} InitReachable(records: nat, workers: nat, first: nat, contexts: nat)
    requires first + workers <= contexts
    ensures Reachable(Init(records, workers, first, contexts))
  {
    EmptyRun(Init(records, workers, first, contexts));
    assert ReachedFrom(records, workers, first, contexts, Init(records, workers, first, contexts));
  }

  /** Runs never get stuck on the invariant: whatever action is possible leads to a reachable state. */
  lemma {:induction false} ReachableStep(s: System, a: Action, t: System)
    requires Reachable(s) && CanAct(s, a)
    ensures Inv(s) && (t == Act(s, a) ==> Reachable(t))
  {
    ReachableHolds(s);
    if t == Act(s, a) {
      var records, workers, first, contexts :| ReachedFrom(records, workers, first, contexts, s);
      RunsExtend(Init(records, workers, first, contexts), s, a, t);
      assert ReachedFrom(records, workers, first, contexts, t);
    }
  }

  // ---------------------------------------------------------------- identity

  /** One Phase bit is enough: every live handle, every waiting context and every Worker binding
      holds an index and Phase that match an allocated record, and the incarnation they match is
      their own; two live handles never share a slot. */
  lemma {:induction false} OnePhaseBitIsEnough(s: System)
    requires Reachable(s)
    ensures forall id :: id in s.tokens ==>
      IsCurrent(s.f.core, s.tokens[id]) && Names(s.f.core, s.ids, id, s.tokens[id])
    ensures forall k :: 0 <= k < |s.ops| && s.ops[k].Waiter? ==>
      IsCurrent(s.f.core, s.ops[k].ref) && Names(s.f.core, s.ids, s.ops[k].id, s.ops[k].ref)
    ensures forall w :: 0 <= w < |s.roles| && (s.roles[w].Invoking? || s.roles[w].Returned?) ==>
      IsCurrent(s.f.core, s.roles[w].ref) && Names(s.f.core, s.ids, s.roles[w].id, s.roles[w].ref)
    ensures forall a, b :: a in s.tokens && b in s.tokens && s.tokens[a].index == s.tokens[b].index ==> a == b
  {
    ReachableHolds(s);
    forall id | id in s.tokens ensures Names(s.f.core, s.ids, id, s.tokens[id]) { TokenKnown(s, id); }
    forall k | 0 <= k < |s.ops| && s.ops[k].Waiter? ensures Names(s.f.core, s.ids, s.ops[k].id, s.ops[k].ref) {
      assert OpOk(s.f.core, s.ids, s.f.waiters, s.tokens, s.unreturned, s.ops, k);
    }
    forall w | 0 <= w < |s.roles| && (s.roles[w].Invoking? || s.roles[w].Returned?)
      ensures Names(s.f.core, s.ids, s.roles[w].id, s.roles[w].ref)
    {
      InvokingKnown(s, w);
    }
  }

  /** Reuse is invisible: whoever holds a reference gets the answers the ideal facility gives for
      the Task number behind it, and a completed Task hands out what its own callable returned. */
  lemma {:induction false} AnswersAreIdeal(s: System, id: nat, ref: Ref)
    requires Reachable(s) && Names(s.f.core, s.ids, id, ref)
    ensures id < |s.ledger.tasks|
    ensures StateOf(s.f.core, ref) == TaskQueued <==> s.ledger.tasks[id].body.state.Queued?
    ensures StateOf(s.f.core, ref) == TaskRunning <==> IsRunning(s.ledger.tasks[id].body)
    ensures StateOf(s.f.core, ref) == TaskCompleted <==> s.ledger.tasks[id].body.state.Completed?
    ensures StateOf(s.f.core, ref) == TaskCancelled <==> s.ledger.tasks[id].body.state.Cancelled?
    ensures CancellationRequested(s.f.core, ref) <==> s.ledger.tasks[id].body.state.RunningCancelRequested?
    ensures CancelAccepted(s.f.core, ref) <==> !IsTerminal(s.ledger.tasks[id].body)
    ensures Granted(s.f.core, ref) <==> id in s.ledger.granted
    ensures IsCompleted(s.f.core, ref) && s.f.core.records[ref.index].body.owner ==>
      s.f.core.records[ref.index].body.payload.Result?
      && s.ledger.tasks[id].past.produced == Some(s.f.core.records[ref.index].body.payload.value)
  {
    ReachableHolds(s);
    NamedKnown(s, id, ref);
    GrantAnswerIsHistory(s.ledger, id);
  }

  /** Every run of the facility is a run of the ideal facility, from the empty ledger. */
  lemma {:induction false} RunsAreIdeal(records: nat, workers: nat, first: nat, contexts: nat,
                                        states: seq<System>, acts: seq<Action>, s: System)
    requires first + workers <= contexts && RunFromTo(states, acts, Init(records, workers, first, contexts), s)
    ensures var es := RunEvents(states, acts, |acts|); CanReplay(NO_TASKS, es) && s.ledger == Replay(NO_TASKS, es)
  {
    InitInv(records, workers, first, contexts);
    RunRefines(states, acts, |acts|, Init(records, workers, first, contexts), s);
  }

  lemma {:induction false} RunAdvances(s: System, u: System, id: nat)
    requires Inv(s) && LeadsTo(s, u) && id < |s.ledger.tasks|
    ensures Inv(u) && id < |u.ledger.tasks| && Advanced(s.ledger.tasks[id].body, u.ledger.tasks[id].body)
  {
    var states, acts :| RunFromTo(states, acts, s, u);
    RunRefines(states, acts, |acts|, s, u);
    ReplayAdvances(s.ledger, RunEvents(states, acts, |acts|), id);
  }

  lemma {:induction false} AnswersAdvance(c: Core, d: Core, ref: Ref)
    requires IsCurrent(c, ref) && IsCurrent(d, ref)
    requires Advanced(c.records[ref.index].body, d.records[ref.index].body)
    ensures Terminated(c, ref) ==> StateOf(d, ref) == StateOf(c, ref)
  {
  }

  /** Whoever keeps a reference over any further run, through any reuse of slots and Phases around it,
      sees one Task that only goes forward: a terminal answer is final. */
  lemma {:induction false} AnswersOnlyAdvance(s: System, u: System, id: nat, ref: Ref)
    requires Reachable(s) && LeadsTo(s, u)
    requires Names(s.f.core, s.ids, id, ref) && Names(u.f.core, u.ids, id, ref)
    ensures Advanced(s.f.core.records[ref.index].body, u.f.core.records[ref.index].body)
    ensures Terminated(s.f.core, ref) ==> StateOf(u.f.core, ref) == StateOf(s.f.core, ref)
  {
    ReachableHolds(s);
    NamedKnown(s, id, ref);
    RunAdvances(s, u, id);
    NamedKnown(u, id, ref);
    AnswersAdvance(s.f.core, u.f.core, ref);
  }

  // ---------------------------------------------------------------- wake-ups

  /** Context k is parked in a wait whose predicate already holds. */
  ghost predicate ParkedTooLong(s: System, k: nat)
    requires k < |s.ops|
  {
    match s.ops[k]
    case Waiter(ForTerminal, _, ref, _, parked) => parked && Terminated(s.f.core, ref)
    case Waiter(ForGrant, _, ref, _, parked) => parked && Granted(s.f.core, ref)
    case AwaitingCapacity(_, parked) => parked && HasCapacity(s.f.core)
    case _ => false
  }

  /** A context blocked, or about to block, although what it waits for already holds, has its own
      signal latched; the only excuse is that a notification to that very context failed. */
  lemma {:induction false} NoLostWakeup(s: System, k: nat)
    requires Reachable(s) && k < |s.ops| && ParkedTooLong(s, k)
    ensures k in s.f.signals.latched + s.f.signals.failed
  {
    ReachableHolds(s);
    AwakeInside(s, k);
  }

  lemma {:induction false} AwakeInside(s: System, k: nat)
    requires Inv(s) && k < |s.ops| && ParkedTooLong(s, k)
    ensures k in s.f.signals.latched + s.f.signals.failed
  {
    assert OpOk(s.f.core, s.ids, s.f.waiters, s.tokens, s.unreturned, s.ops, k);
    assert WaiterAwake(s.f.core, s.f.signals, s.ops, k);
    assert CapacityAwake(s.f.core, s.f.signals, s.ops, k);
    CapacityIsSomeFree(s.f.core);
  }

  /** The Worker with context c executes a Task that was asked to stop. */
  ghost predicate AskedToStop(s: System, c: nat) {
    && c < |s.roles| && s.roles[c].Invoking? && s.roles[c].id < |s.ledger.tasks|
    && s.ledger.tasks[s.roles[c].id].body.state.RunningCancelRequested?
  }

  /** Context c blocks in a wait inside a Task that was asked to stop, and no signal is on its way. */
  ghost predicate Deaf(s: System, c: nat) {
    Reachable(s) && Blocked(s, c) && AskedToStop(s, c) && c !in s.f.signals.latched + s.f.signals.failed
  }

  /** No lost interruption: a Worker that blocks inside a Task that was asked to stop has its signal
      latched, unless a wake of it failed; always so in a wait for a Task, and in a wait for a grant or for
      capacity once it has looked.  Only before its first look there can the request have gone by. */
  lemma {:induction false} NoLostInterruption(s: System, c: nat)
    requires Reachable(s) && Blocked(s, c) && AskedToStop(s, c)
    requires c in s.clear || (s.ops[c].Waiter? && s.ops[c].kind.ForTerminal?)
    ensures c in s.f.signals.latched + s.f.signals.failed
  {
    ReachableHolds(s);
    InvokingKnown(s, c);
    assert AsksAt(s.f.core, s.roles[c].ref.index, c);
    assert AlertAt(s.f, s.clear, c);
  }

  lemma {:induction false} DeafOnlyBeforeTheFirstLook(s: System, c: nat)
    requires Deaf(s, c)
    ensures c !in s.clear && (s.ops[c].AwaitingCapacity? || s.ops[c].kind.ForGrant?)
  {
    if c in s.clear || (s.ops[c].Waiter? && s.ops[c].kind.ForTerminal?) { NoLostInterruption(s, c); }
  }

  /** A parked Worker that holds a grant has its signal latched, whatever notifications failed. */
  lemma {:induction false} GrantedWorkerIsWoken(s: System, w: nat)
    requires Reachable(s) && w < |s.roles| && s.roles[w].Parked? && Assigned(s.f.core, w).Some?
    ensures w in s.f.signals.latched
  {
    ReachableHolds(s);
    assert WorkerOk(s.f.core, s.ids, s.f.workers, s.f.first, s.serving, s.roles, w);
    AssignedIsServing(s, w, 0);
    assert WorkerAwake(s.f.signals, s.serving, s.roles, w);
  }

  /** Registration never fails: whoever may register finds a slot, so the branch that withdraws a
      Task because registration failed is never taken. */
  lemma {:induction false} RegistrationNeverFails(s: System, c: nat)
    requires Reachable(s) && c < |s.ops|
    ensures s.ops[c].Idle? || s.ops[c].Entering? ==> FirstInactive(s.f.waiters) < |s.f.waiters|
    ensures s.ops[c].Idle? ==> FirstInactive(s.f.admission) < |s.f.admission|
  {
    ReachableHolds(s);
    if !s.ops[c].Waiter? { WaiterRoom(s, c); }
    if !s.ops[c].AwaitingCapacity? { CapacityRoom(s, c); }
  }

  // ---------------------------------------------------------------- payloads

  /** Each callable is destroyed exactly once, by whichever of invocation, cancellation and
      abandonment ends it; each result at most once, and exactly once when its Task is gone; and
      no operation ever read the buffer as the wrong object. */
  lemma {:induction false} PayloadsEndExactlyOnce(s: System, id: nat)
    requires Reachable(s) && id < |s.ledger.tasks|
    ensures var e := s.ledger.tasks[id];
      && e.log.callableEnds == (if e.body.payload.Callable? then 0 else 1)
      && e.log.resultStarts <= 1 && e.log.resultEnds <= e.log.resultStarts
      && (Retired(e.body) ==> e.log.callableEnds == 1 && e.log.resultEnds == e.log.resultStarts)
      && !e.body.payload.Corrupt?
    ensures forall i :: 0 <= i < |s.f.core.records| && Live(s.f.core, i) ==> !s.f.core.records[i].body.payload.Corrupt?
  {
    ReachableHolds(s);
    assert Lifetimes(s.ledger.tasks[id]);
    forall i | 0 <= i < |s.f.core.records| && Live(s.f.core, i)
      ensures !s.f.core.records[i].body.payload.Corrupt?
    {
      assert Names(s.f.core, s.ids, s.ids[i], RefOf(s.f.core, i));
      NamedKnown(s, s.ids[i], RefOf(s.f.core, i));
    }
  }

  /** While a Worker is inside the callable, outside every lock, nothing anybody else does takes the
      record from it or touches the buffer: the very same callable is still there. */
  lemma {:induction false} InvocationIsUndisturbed(s: System, a: Action, w: nat)
    requires Reachable(s) && Inv(s) && CanAct(s, a) && w < |s.roles| && s.roles[w].Invoking?
    requires !(a.Work? && a.work.CallableReturn? && a.work.w == w)
    ensures var t := Act(s, a);
      && w < |t.roles| && t.roles[w] == s.roles[w]
      && Names(t.f.core, t.ids, s.roles[w].id, s.roles[w].ref)
      && s.roles[w].ref.index < |s.f.core.records|
      && t.f.core.records[s.roles[w].ref.index].body.payload == s.f.core.records[s.roles[w].ref.index].body.payload
      && t.f.core.records[s.roles[w].ref.index].body.payload.Callable?
      && IsRunning(t.f.core.records[s.roles[w].ref.index].body)
  {
    InvokingKnown(s, w);
    var t := Act(s, a);
    ReplayAdvances(s.ledger, Events(s, a), s.roles[w].id);
    InvokingKnown(t, w);
  }

  // ---------------------------------------------------------------- dispatch

  /** The Task a dispatch call gives back as failed although it had been admitted. */
  ghost function FailedDispatch(s: System, a: Action): Option<nat>
    requires CanAct(s, a)
  {
    if a.Call? && a.call.Dispatch? then
      var d := a.call;
      var g := Schedule(AdmitPrefix(s.f, d.work, d.sig), d.caller, d.n);
      if DispatchEnds(g, AdmittedRef(s.f.core), d.policy, d.ok, d.caller).Withdrawn?
      then Some(|s.ledger.tasks|) else None
    else if a.Wait? && a.wait.RecheckGrant? && a.wait.leave && !Granted(s.f.core, s.ops[a.wait.c].ref)
    then Some(s.ops[a.wait.c].id)
    else None
  }

  lemma {:induction false} UnwaitedWhenEmpty(slots: seq<Slot<Ref>>, target: Ref)
    ensures Waited(slots, target) <==> Waiting(slots, target) != {}
  {
    if Waited(slots, target) {
      var j :| 0 <= j < |slots| && Matches(slots, j, target);
      assert slots[j].context in Waiting(slots, target);
    }
  }

  /** Giving up an ungranted Task nobody waits for drops and retires it and frees its record. */
  lemma {:induction false} GiveUpDrops(s: System, id: nat)
    requires Inv(s) && CanGiveUp(s, id) && !Granted(s.f.core, s.tokens[id])
    requires Waiting(s.f.waiters, s.tokens[id]) == {}
    ensures var t := GiveUp(s, id);
      && id < |t.ledger.tasks| && Dropped(t.ledger.tasks[id].body) && Retired(t.ledger.tasks[id].body)
      && id !in t.tokens && !HoldsRecord(t, id)
  {
    var t, ref := GiveUp(s, id), s.tokens[id];
    TokenKnown(s, id);
    NamedKnown(s, id, ref);
    ReplayOne(s.ledger, OwnerReleased(id));
    assert Lifetimes(t.ledger.tasks[id]);
    UnwaitedWhenEmpty(s.f.waiters, ref);
    assert !Live(t.f.core, ref.index);
    OnlyHome(s, t, id);
  }

  /** A Task has no second record. */
  lemma {:induction false} OnlyHome(s: System, t: System, id: nat)
    requires Inv(s) && Inv(t) && t.home == s.home && id in s.tokens && !Live(t.f.core, s.tokens[id].index)
    ensures !HoldsRecord(t, id)
  {
    TokenKnown(s, id);
    assert RowOk(s.f.core, s.ids, s.home, s.ledger, s.tokens[id].index);
    forall i | 0 <= i < |t.f.core.records| && Live(t.f.core, i) && i < |t.ids| ensures t.ids[i] != id {
      assert RowOk(t.f.core, t.ids, t.home, t.ledger, i);
    }
  }

  /** Some allocated record is the Task's. */
  ghost predicate HoldsRecord(s: System, id: nat) {
    exists i :: 0 <= i < |s.f.core.records| && Live(s.f.core, i) && i < |s.ids| && s.ids[i] == id
  }

  /** What a failed dispatch call leaves behind: the Task dropped and retired, no handle to it, and no
      record. */
  ghost predicate GoneAfter(t: System, id: nat) {
    && id < |t.ledger.tasks| && Dropped(t.ledger.tasks[id].body) && Retired(t.ledger.tasks[id].body)
    && id !in t.tokens && !HoldsRecord(t, id)
  }

  lemma {:induction false} WithdrawnDispatchDrops(s: System, a: Action)
    requires Inv(s) && CanAct(s, a) && a.Call? && FailedDispatch(s, a).Some?
    ensures GoneAfter(Act(s, a), FailedDispatch(s, a).value)
  {
    var d, id := a.call, |s.ledger.tasks|;
    var g := Admitting(s, d.caller, d.work, d.n, d.sig);
    NewTaskUnwaited(s, g, id);
    GiveUpDrops(g, id);
  }

  lemma {:induction false} AbandonedWaitDrops(s: System, a: Action)
    requires Inv(s) && CanAct(s, a) && a.Wait? && FailedDispatch(s, a).Some?
    ensures GoneAfter(Act(s, a), FailedDispatch(s, a).value)
  {
    var c, sig := a.wait.c, a.wait.sig;
    var s1 := Notify(s, sig);
    NotifyKeeps(s, sig);
    UnreturnedUnwaited(s1, c);
    DepartKeeps(s1, c);
    GiveUpDrops(Depart(s1, c), s.ops[c].id);
  }

  /** The Task was never granted to a Worker, its callable never ran and ended exactly once, and neither a
      handle, the queue nor a record knows it. */
  ghost predicate NeverRan(u: System, id: nat) {
    && id < |u.ledger.tasks| && id !in u.ledger.granted && id !in u.ledger.queue && id !in u.tokens
    && u.ledger.tasks[id].log.invokedBy == [] && u.ledger.tasks[id].log.callableEnds == 1
    && !HoldsRecord(u, id)
  }

  lemma {:induction false} FailedDispatchIsGone(s: System, a: Action)
    requires Inv(s) && CanAct(s, a) && FailedDispatch(s, a).Some?
    ensures GoneAfter(Act(s, a), FailedDispatch(s, a).value)
  {
    if a.Call? { WithdrawnDispatchDrops(s, a); } else { AbandonedWaitDrops(s, a); }
  }

  /** A failed dispatch never runs: its Task is gone when the call returns, and in every continuation
      of the run it was never granted to a Worker, its callable was never invoked and it never gets a
      record again. */
  lemma {:induction false} FailedDispatchNeverRuns(s: System, a: Action, t: System, u: System)
    requires Reachable(s) && Steps(s, a, t) && LeadsTo(t, u)
    requires FailedDispatch(s, a).Some?
    ensures GoneAfter(t, FailedDispatch(s, a).value)
    ensures NeverRan(u, FailedDispatch(s, a).value)
  {
    ReachableHolds(s);
    StepStaysAtRest(s, a, t);
    FailedDispatchIsGone(s, a);
    DroppedForever(t, u, FailedDispatch(s, a).value);
  }

  /** Nobody waits for Task id. */
  ghost predicate Unawaited(s: System, id: nat) {
    forall k :: 0 <= k < |s.ops| && (s.ops[k].Waiter? || s.ops[k].Entering?) ==> s.ops[k].id != id
  }

  lemma {:induction false} GoneIsUnawaited(s: System, id: nat)
    requires Inv(s) && id !in s.tokens && !HoldsRecord(s, id)
    ensures Unawaited(s, id)
  {
    forall k | 0 <= k < |s.ops| && (s.ops[k].Waiter? || s.ops[k].Entering?) ensures s.ops[k].id != id {
      assert OpOk(s.f.core, s.ids, s.f.waiters, s.tokens, s.unreturned, s.ops, k);
    }
  }

  lemma {:induction false} CallsStartNoWait(s: System, a: CallAction, id: nat)
    requires Inv(s) && CanCall(s, a) && id < |s.ledger.tasks| && Unawaited(s, id)
    ensures Unawaited(DoCall(s, a), id)
  {
    match a
    case Dispatch(caller, policy, work, n, ok, sig) => DispatchStartsNoWait(s, caller, policy, work, n, ok, sig, id);
    case _ => assert DoCall(s, a).ops == s.ops;
  }

  lemma {:induction false} DispatchStartsNoWait(s: System, caller: Option<nat>, policy: DispatchPolicy, work: nat,
      n: nat, ok: bool, sig: Signals, id: nat)
    requires Inv(s) && CanDispatch(s, caller, policy, work, n, ok, sig)
    requires id < |s.ledger.tasks| && Unawaited(s, id)
    ensures Unawaited(DoDispatch(s, caller, policy, work, n, ok, sig), id)
  {
    var mine := |s.ledger.tasks|;
    var g := Admitting(s, caller, work, n, sig);
    AdmittedSettles(s, caller, policy, work, n, ok, sig, g);
    SettlesForItself(g, mine, DispatchEnds(g.f, AdmittedRef(s.f.core), policy, ok, caller), caller, id);
  }

  lemma {:induction false} SettlesForItself(g: System, mine: nat, end: DispatchEnd, caller: Option<nat>, id: nat)
    requires CanSettle(g, mine, end, caller) && id != mine && Unawaited(g, id)
    ensures Unawaited(Settle(g, mine, end, caller), id)
  {
  }

  /** Only who has the handle of a Task begins to wait for it. */
  lemma {:induction false} WaitsForHandles(s: System, a: WaitAction, id: nat)
    requires Inv(s) && CanWait(s, a) && id !in s.tokens && Unawaited(s, id)
    ensures Unawaited(DoWait(s, a), id)
  {
    var t := DoWait(s, a);
    if a.EnterTaskWait? || a.EnterGrantWait? || a.EnterCapacityWait? {
      EntriesForHandles(s, a, id);
    } else if a.RecheckCapacity? {
      assert t.ops == s.ops[a.c := t.ops[a.c]];
    } else if a.RecheckTask? || a.RecheckGrant? {
      RechecksForNobody(s, a, id);
    } else {
      assert a.ReturnFromSignal? || t.ops == s.ops;
    }
  }

  lemma {:induction false} RechecksForNobody(s: System, a: WaitAction, id: nat)
    requires Inv(s) && CanWait(s, a) && Unawaited(s, id)
    requires a.RecheckTask? || a.RecheckGrant?
    ensures Unawaited(DoWait(s, a), id)
  {
    var c, t := a.c, DoWait(s, a);
    assert t.ops == s.ops[c := t.ops[c]] && (t.ops[c].Idle? || (t.ops[c].Waiter? && t.ops[c].id == s.ops[c].id));
  }

  lemma {:induction false} EntriesForHandles(s: System, a: WaitAction, id: nat)
    requires Inv(s) && CanWait(s, a) && id !in s.tokens && Unawaited(s, id)
    requires a.EnterTaskWait? || a.EnterGrantWait? || a.EnterCapacityWait?
    ensures Unawaited(DoWait(s, a), id)
  {
  }

  lemma {:induction false} WorkersStartNoWait(s: System, a: WorkerAction)
    requires Inv(s) && CanWork(s, a)
    ensures DoWork(s, a).ops == s.ops
  {
  }

  lemma {:induction false} WaitsStayAway(s: System, a: Action, id: nat)
    requires Inv(s) && CanAct(s, a) && id !in s.tokens && id < |s.ledger.tasks| && Unawaited(s, id)
    ensures Unawaited(Act(s, a), id)
  {
    match a
    case Call(b) => CallsStartNoWait(s, b, id);
    case Wait(b) => WaitsForHandles(s, b, id);
    case Work(b) => WorkersStartNoWait(s, b);
  }

  lemma {:induction false} RecordStaysAway(s: System, a: Action, t: System, id: nat)
    requires Steps(s, a, t) && Rest(t) && id < |s.ledger.tasks|
    requires Retired(s.ledger.tasks[id].body) && !HoldsRecord(s, id)
    ensures id < |t.ledger.tasks| && Retired(t.ledger.tasks[id].body) && !HoldsRecord(t, id)
  {
    if id in s.tokens { TokenKnown(s, id); }
    GoneIsUnawaited(s, id);
    WaitsStayAway(s, a, id);
    ReplayKeeps(s.ledger, Events(s, a), id);
    if id in t.tokens { TokenKnown(t, id); }
    if HoldsRecord(t, id) {
      var i :| 0 <= i < |t.f.core.records| && Live(t.f.core, i) && i < |t.ids| && t.ids[i] == id;
      HeldIsWanted(t, i);
    }
  }

  lemma {:induction false} RecordsStayAway(states: seq<System>, acts: seq<Action>, n: nat, u: System, id: nat)
    requires IsRun(states, acts) && n <= |acts| && states[n] == u
    requires Inv(states[0]) && Rest(states[0]) && id < |states[0].ledger.tasks|
    requires Retired(states[0].ledger.tasks[id].body) && !HoldsRecord(states[0], id)
    ensures Inv(u) && Rest(u) && id < |u.ledger.tasks| && Retired(u.ledger.tasks[id].body) && !HoldsRecord(u, id)
  {
    if n > 0 {
      var i, m := n - 1, states[n - 1];
      RecordsStayAway(states, acts, i, m, id);
      StepTaken(states, acts, i, m, u);
      StepRests(m, acts[i]);
      RecordStaysAway(m, acts[i], u, id);
    }
  }

  lemma {:induction false} DroppedForever(t: System, u: System, id: nat)
    requires Inv(t) && Rest(t) && LeadsTo(t, u) && GoneAfter(t, id)
    ensures NeverRan(u, id)
  {
    var states, acts :| RunFromTo(states, acts, t, u);
    RecordsStayAway(states, acts, |acts|, u, id);
    RunRefines(states, acts, |acts|, t, u);
    ReplayKeeps(t.ledger, RunEvents(states, acts, |acts|), id);
    assert Lifetimes(u.ledger.tasks[id]);
    GrantAnswerIsHistory(u.ledger, id);
    if id in u.tokens { TokenKnown(u, id); }
  }

  /** The Task a dispatch call hands back as Succeeded under a policy that promises a Worker. */
  ghost function PromisedDispatch(s: System, a: Action): Option<nat>
    requires CanAct(s, a)
  {
    if a.Call? && a.call.Dispatch? then
      var d := a.call;
      var g := Schedule(AdmitPrefix(s.f, d.work, d.sig), d.caller, d.n);
      if !d.policy.QueueForever? && DispatchEnds(g, AdmittedRef(s.f.core), d.policy, d.ok, d.caller).HandleReturned?
      then Some(|s.ledger.tasks|) else None
    else if a.Wait? && a.wait.EnterGrantWait? && Granted(s.f.core, s.ops[a.wait.c].ref) then Some(s.ops[a.wait.c].id)
    else if a.Wait? && a.wait.RecheckGrant? && Granted(s.f.core, s.ops[a.wait.c].ref) then Some(s.ops[a.wait.c].id)
    else None
  }

  /** Succeeded under QueueWithTimeout or AbandonImmediately means that a Worker was granted, and
      the caller has the only handle. */
  lemma {:induction false} SucceededMeansGranted(s: System, a: Action, t: System)
    requires Reachable(s) && Steps(s, a, t) && PromisedDispatch(s, a).Some?
    ensures var id := PromisedDispatch(s, a).value;
      id < |t.ledger.tasks| && id in t.ledger.granted && id in t.tokens && id !in t.unreturned
  {
    if a.Call? { PromisedCall(s, a); } else { PromisedWait(s, a); }
  }

  lemma {:induction false} PromisedCall(s: System, a: Action)
    requires Inv(s) && CanAct(s, a) && a.Call? && PromisedDispatch(s, a).Some?
    ensures var id, t := PromisedDispatch(s, a).value, Act(s, a);
      id < |t.ledger.tasks| && id in t.ledger.granted && id in t.tokens && id !in t.unreturned
  {
    var d, id := a.call, |s.ledger.tasks|;
    var g := Admitting(s, d.caller, d.work, d.n, d.sig);
    NewTaskUnwaited(s, g, id);
    TokenKnown(g, id);
    GrantAnswerIsHistory(g.ledger, id);
  }

  lemma {:induction false} PromisedWait(s: System, a: Action)
    requires Inv(s) && CanAct(s, a) && a.Wait? && PromisedDispatch(s, a).Some?
    ensures var id, t := PromisedDispatch(s, a).value, Act(s, a);
      id < |t.ledger.tasks| && id in t.ledger.granted && id in t.tokens && id !in t.unreturned
  {
    var c := a.wait.c;
    assert OpOk(s.f.core, s.ids, s.f.waiters, s.tokens, s.unreturned, s.ops, c);
    TokenKnown(s, s.ops[c].id);
    GrantAnswerIsHistory(s.ledger, s.ops[c].id);
  }

  /** A dispatch that refuses to queue and was admitted found a free Worker and an empty queue, so
      the pass grants its Task unless a wake fails: the branch that gives such a Task back as
      Unavailable after admission is never taken. */
  lemma {:induction false} AbandonAfterAdmissionIsDead(f: Facility, caller: Option<nat>, work: nat, n: nat,
      ok: bool, sig: Signals)
    requires HasCapacity(f.core) && !Refused(f, AbandonImmediately)
    requires CanSchedule(AdmitPrefix(f, work, sig), caller, n)
    requires ok ==> Saturated(Schedule(AdmitPrefix(f, work, sig), caller, n))
    ensures var g := Schedule(AdmitPrefix(f, work, sig), caller, n);
      && (n == 1 || (n == 0 && !ok))
      && (ok ==> DispatchEnds(g, AdmittedRef(f.core), AbandonImmediately, ok, caller) == HandleReturned)
      && DispatchEnds(g, AdmittedRef(f.core), AbandonImmediately, ok, caller) != Withdrawn(Unavailable)
  {
    var f1 := AdmitPrefix(f, work, sig);
    if n > 0 {
      var f2 := GrantNext(f1, NextWorker(f1, caller));
      assert f2.core.queue == [];
      assert Schedule(f1, caller, 1) == Schedule(f2, caller, 0) == f2;
    }
  }

  // ---------------------------------------------------------------- records

  /** Somebody still wants Task id: it is not over, a handle is live, or a context waits for it. */
  ghost predicate Wanted(s: System, id: nat)
    requires id < |s.ledger.tasks|
  {
    || !IsTerminal(s.ledger.tasks[id].body)
    || id in s.tokens
    || (exists k :: 0 <= k < |s.ops| && s.ops[k].Waiter? && s.ops[k].id == id)
  }

  lemma {:induction false} HeldIsWanted(s: System, i: nat)
    requires Inv(s) && Tidy(s.f) && Live(s.f.core, i)
    ensures i < |s.ids| && s.ids[i] < |s.ledger.tasks| && Wanted(s, s.ids[i])
  {
    var ref := RefOf(s.f.core, i);
    assert Names(s.f.core, s.ids, s.ids[i], ref);
    NamedKnown(s, s.ids[i], ref);
    assert TidyAt(s.f, i) && OwnerOk(s.f.core, s.ids, s.tokens, i);
    if Waited(s.f.waiters, ref) {
      var j :| 0 <= j < |s.f.waiters| && Matches(s.f.waiters, j, ref);
      assert SlotOk(s.f.waiters, s.ops, j);
      var k := s.f.waiters[j].context;
      assert OpOk(s.f.core, s.ids, s.f.waiters, s.tokens, s.unreturned, s.ops, k);
      assert s.ops[k].Waiter? && s.ops[k].id == s.ids[i];
    }
  }

  lemma {:induction false} WantedIsHeld(s: System, id: nat)
    requires Inv(s) && id < |s.ledger.tasks| && Wanted(s, id)
    ensures HoldsRecord(s, id)
  {
    if !IsTerminal(s.ledger.tasks[id].body) {
      assert HomeOk(s.f.core, s.ids, s.home, s.ledger, id);
    } else if id in s.tokens {
      TokenKnown(s, id);
    } else {
      var k :| 0 <= k < |s.ops| && s.ops[k].Waiter? && s.ops[k].id == id;
      assert OpOk(s.f.core, s.ids, s.f.waiters, s.tokens, s.unreturned, s.ops, k);
    }
  }

  /** Whenever the facility mutex is free, a Task holds a record exactly when it is not terminal, is
      owned, or is waited for: nothing leaks and nothing is freed early. */
  lemma {:induction false} AllocatedIffWanted(s: System, id: nat)
    requires Reachable(s) && id < |s.ledger.tasks|
    ensures HoldsRecord(s, id) <==> Wanted(s, id)
  {
    ReachableHolds(s);
    if HoldsRecord(s, id) {
      var i :| 0 <= i < |s.f.core.records| && Live(s.f.core, i) && i < |s.ids| && s.ids[i] == id;
      HeldIsWanted(s, i);
    } else if Wanted(s, id) {
      WantedIsHeld(s, id);
    }
  }

  // ---------------------------------------------------------------- order and Workers

  /** Over any run the admissions, without the Tasks dropped before a grant, are the grants in order
      followed by the queue as it stands in the record table. */
  lemma {:induction false} GrantsKeepAdmissionOrder(s: System)
    requires Reachable(s)
    ensures s.ledger.granted + IdsOf(s.ids, s.f.core.queue) == Survivors(s.ledger.tasks, |s.ledger.tasks|)
    ensures forall j, k :: 0 <= j < k < |s.ledger.granted| ==> s.ledger.granted[j] < s.ledger.granted[k]
  {
    ReachableHolds(s);
    QueueDistinct(s.ledger);
  }

  lemma {:induction false} QueuedAfterGranted(l: Ledger, a: nat, b: nat)
    requires Fifo(l)
    ensures b in l.granted && a in l.queue ==> b < a
  {
    QueueDistinct(l);
  }

  /** A Task admitted later is granted only after every earlier Task was granted or dropped. */
  lemma {:induction false} GrantsNeverOvertake(s: System, a: nat, b: nat)
    requires Reachable(s) && a < b && b in s.ledger.granted
    ensures a < |s.ledger.tasks| && (a in s.ledger.granted || Dropped(s.ledger.tasks[a].body))
  {
    ReachableHolds(s);
    SurvivorsAre(s.ledger.tasks, |s.ledger.tasks|);
    assert b in s.ledger.granted + s.ledger.queue;
    QueuedAfterGranted(s.ledger, a, b);
    assert a in s.ledger.granted + s.ledger.queue <==> a in s.ledger.granted || a in s.ledger.queue;
  }

  /** Record i is allocated to a Task running on Worker context w. */
  ghost predicate RunsOn(c: Core, i: nat, w: nat) {
    Live(c, i) && IsRunning(c.records[i].body) && c.records[i].body.grant == Some(w)
  }

  lemma {:induction false} RunningInside(s: System, i: nat, j: nat)
    requires Shape(s) && WorkersOk(s.f.core, s.ids, s.f.workers, s.f.first, s.serving, s.roles)
    requires Live(s.f.core, i) && IsRunning(s.f.core.records[i].body)
    ensures s.f.core.records[i].body.grant.Some?
    ensures var w := s.f.core.records[i].body.grant.value;
      IsWorker(s.f, w) && !Available(s.f, w) && (RunsOn(s.f.core, j, w) ==> j == i)
  {
    assert RunOk(s.f.core, s.serving, i) && RunOk(s.f.core, s.serving, j);
    var w := s.f.core.records[i].body.grant.value;
    assert WorkerOk(s.f.core, s.ids, s.f.workers, s.f.first, s.serving, s.roles, w);
  }

  /** A running Task is on one of the facility's Workers, that Worker is not available, and it runs
      nothing else. */
  lemma {:induction false} RunningIsExclusive(s: System, i: nat, j: nat)
    requires Reachable(s) && Live(s.f.core, i) && IsRunning(s.f.core.records[i].body)
    ensures s.f.core.records[i].body.grant.Some?
    ensures var w := s.f.core.records[i].body.grant.value;
      IsWorker(s.f, w) && !Available(s.f, w) && (RunsOn(s.f.core, j, w) ==> j == i)
  {
    ReachableHolds(s);
    RunningInside(s, i, j);
  }

  ghost predicate IsBusy(s: System, w: nat) {
    exists i :: 0 <= i < |s.f.core.records| && RunsOn(s.f.core, i, w)
  }

  lemma {:induction false} BusyInside(s: System, w: nat)
    requires Shape(s) && WorkersOk(s.f.core, s.ids, s.f.workers, s.f.first, s.serving, s.roles)
    requires IsWorker(s.f, w) && w < |s.roles| && !s.roles[w].Unlisted?
    ensures Available(s.f, w) <==> !IsBusy(s, w)
  {
    assert WorkerOk(s.f.core, s.ids, s.f.workers, s.f.first, s.serving, s.roles, w);
    if s.serving[w].Some? {
      assert RunsOn(s.f.core, s.serving[w].value, w);
    } else {
      forall i: nat | i < |s.f.core.records| ensures !RunsOn(s.f.core, i, w) { assert RunOk(s.f.core, s.serving, i); }
    }
  }

  /** Every Worker that has been listed is available or runs a Task, never both and never neither:
      claims and completions conserve the Workers. */
  lemma {:induction false} WorkersAreConserved(s: System, w: nat)
    requires Reachable(s) && IsWorker(s.f, w) && w < |s.roles| && !s.roles[w].Unlisted?
    ensures Available(s.f, w) <==> !IsBusy(s, w)
  {
    ReachableHolds(s);
    BusyInside(s, w);
  }

  /** Each granted Task is invoked at most once, and only by the Worker it was granted to. */
  lemma {:induction false} InvokedAtMostOnce(s: System, id: nat)
    requires Reachable(s) && id < |s.ledger.tasks| && s.ledger.tasks[id].log.invokedBy != []
    ensures id in s.ledger.granted && s.ledger.tasks[id].body.grant.Some?
    ensures s.ledger.tasks[id].log.invokedBy == [s.ledger.tasks[id].body.grant.value]
  {
    ReachableHolds(s);
    assert Lifetimes(s.ledger.tasks[id]);
    GrantAnswerIsHistory(s.ledger, id);
  }

  /** No Worker idles beside a queued Task whenever the mutex is free, unless a wake has failed. */
  lemma {:induction false} SchedulingConservesWork(s: System)
    requires Reachable(s) && s.f.signals.failed == {}
    ensures (forall w: nat :: !Available(s.f, w)) || s.f.core.queue == []
  {
    ReachableHolds(s);
    if s.f.core.queue != [] {
      forall w: nat ensures !Available(s.f, w) {
        assert FirstSet(s.f.workers) == |s.f.workers|;
      }
    }
  }

  // ---------------------------------------------------------------- shutdown

  /** Nothing is left to do about this Task but let it finish. */
  predicate Settled(b: Body) { IsTerminal(b) || b.state.RunningCancelRequested? }

  lemma {:induction false} CancelFromSettles(c: Core, k: nat)
    requires k <= |c.records|
    requires forall i :: 0 <= i < k && Live(c, i) ==> Settled(c.records[i].body)
    ensures var d := CancelFrom(c, k);
      |d.records| == |c.records| && forall i :: 0 <= i < |d.records| && Live(d, i) ==> Settled(d.records[i].body)
    decreases |c.records| - k
  {
    if k < |c.records| {
      CancelFromSettles(if c.records[k].free then c else Cancel(c, RefOf(c, k)), k + 1);
    }
  }

  lemma {:induction false} SettledHasNoQueue(t: System)
    requires Inv(t)
    requires forall i :: 0 <= i < |t.f.core.records| && Live(t.f.core, i) ==> Settled(t.f.core.records[i].body)
    ensures t.f.core.queue == []
  {
    if t.f.core.queue != [] { QueuedKnown(t, 0); }
  }

  /** Shutdown cancellation leaves no Task Queued and none running without a cancellation request. */
  lemma {:induction false} ShutdownLeavesNoWork(s: System, sig: Signals)
    requires Inv(s) && CanShutdown(s, sig)
    ensures var c := DoShutdown(s, sig).f.core;
      c.queue == [] && forall i :: 0 <= i < |c.records| && Live(c, i) ==> Settled(c.records[i].body)
  {
    CancelFromSettles(s.f.core, 0);
    SettledHasNoQueue(DoShutdown(s, sig));
  }
}
