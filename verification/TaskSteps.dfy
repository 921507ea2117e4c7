/** The steps of the facility under any interleaving.  Each mutex-protected section is one step and
    is built from the same section functions the runtime class is proved against; blocking, waking
    and running the callable are steps of their own.  Every step keeps the invariant and is zero or
    more events of the ideal ledger. */
module TaskSteps {
  import opened Registrations
  import opened TaskModel
  import opened Pigeonholes
  import opened TaskLedger
  import opened TaskProtocol

  /** s before and t after: the invariant again, and the ledger went through the events es. */
  ghost predicate Moved(s: System, t: System, es: seq<Event>) {
    Inv(t) && CanReplay(s.ledger, es) && t.ledger == Replay(s.ledger, es)
  }

  lemma {:induction false} MovedTwice(s: System, t: System, u: System, a: seq<Event>, b: seq<Event>)
    requires Moved(s, t, a) && Moved(t, u, b)
    ensures Moved(s, u, a + b)
  {
    ReplayAppend(s.ledger, a, b);
  }

  ghost predicate Later(s: System, sig: Signals) {
    Notified(s.f.signals, sig)
  }

  /** Context c runs user code and is not inside a facility call. */
  ghost predicate MayCall(s: System, c: nat) {
    c < |s.ops| && c < |s.roles| && s.ops[c].Idle? && (s.roles[c].NotWorker? || s.roles[c].Invoking?)
  }

  ghost predicate CallerMayCall(s: System, caller: Option<nat>) {
    caller.Some? ==> MayCall(s, caller.value)
  }

  // ---------------------------------------------------------------- scheduling passes

  function GrantEvents(f: Facility, current: Option<nat>, n: nat): seq<Event>
    requires CanSchedule(f, current, n)
    decreases n
  {
    if n == 0 then []
    else var w := NextWorker(f, current); [GrantedTo(w)] + GrantEvents(GrantNext(f, w), current, n - 1)
  }

  /** The executing context, when it is a Worker, is not parked. */
  ghost predicate AwakeCaller(s: System, current: Option<nat>) {
    current.Some? && current.value < |s.roles| ==> !s.roles[current.value].Parked?
  }

  ghost function GrantAll(s: System, current: Option<nat>, n: nat): (t: System)
    requires Inv(s) && AwakeCaller(s, current)
    requires CanSchedule(s.f, current, n) && ScheduleReached(s.f, current, n, s.f.signals)
    ensures t.f == Schedule(s.f, current, n)
    ensures t == s.(f := t.f, serving := t.serving, ledger := t.ledger)
    ensures Moved(s, t, GrantEvents(s.f, current, n))
    decreases n
  {
    if n == 0 then s
    else
      var w := NextWorker(s.f, current);
      GrantKeeps(s, w);
      var u := Grant(s, w);
      assert GrantEvents(s.f, current, n)[1..] == GrantEvents(u.f, current, n - 1);
      GrantAll(u, current, n - 1)
  }

  // ---------------------------------------------------------------- handle operations

  ghost predicate CanCancel(s: System, id: nat, sig: Signals) {
    id in s.tokens && id !in s.unreturned && Later(s, sig) && CancelReached(s.f, s.tokens[id], sig)
  }

  ghost function DoCancel(s: System, id: nat, sig: Signals): (t: System)
    requires Inv(s) && CanCancel(s, id, sig)
    ensures t.f == CancelSection(s.f, s.tokens[id], sig)
    ensures t == s.(f := t.f, ledger := t.ledger) && Moved(s, t, [CancelRequested(id)])
  {
    NotifyKeeps(s, sig);
    TokenKnown(s, id);
    var s1 := Notify(s, sig);
    CancelKeeps(s1, id, s.tokens[id]);
    var s2 := CancelNamed(s1, id, s.tokens[id]);
    ReplayOne(s.ledger, CancelRequested(id));
    RecycleKeeps(s2, s.tokens[id]);
    Recycle(s2, s.tokens[id])
  }

  /** Both a released handle and a withdrawn dispatch give up the owner interest this way. */
  ghost predicate CanGiveUp(s: System, id: nat) {
    id in s.tokens && id !in s.unreturned && ReleaseReached(s.f, s.tokens[id], s.f.signals)
  }

  ghost function GiveUp(s: System, id: nat): (t: System)
    requires Inv(s) && CanGiveUp(s, id)
    ensures t.f == Withdraw(s.f, s.tokens[id])
    ensures t == s.(f := t.f, ledger := t.ledger, tokens := s.tokens - {id})
    ensures Moved(s, t, [OwnerReleased(id)])
  {
    ReleaseKeeps(s, id);
    var s1 := ReleaseNamed(s, id);
    ReplayOne(s.ledger, OwnerReleased(id));
    RecycleKeeps(s1, s.tokens[id]);
    Recycle(s1, s.tokens[id])
  }

  ghost predicate CanRelease(s: System, id: nat, sig: Signals) {
    Later(s, sig) && CanGiveUp(Notify(s, sig), id)
  }

  ghost function DoRelease(s: System, id: nat, sig: Signals): (t: System)
    requires Inv(s) && CanRelease(s, id, sig)
    ensures t.f == ReleaseSection(s.f, s.tokens[id], sig)
    ensures t == s.(f := t.f, ledger := t.ledger, tokens := s.tokens - {id})
    ensures Moved(s, t, [OwnerReleased(id)])
  {
    NotifyKeeps(s, sig);
    GiveUp(Notify(s, sig), id)
  }

  ghost predicate CanTake(s: System, id: nat, sig: Signals) {
    && id in s.tokens && id !in s.unreturned && Later(s, sig)
    && IsCompleted(s.f.core, s.tokens[id]) && TakeReached(s.f, s.tokens[id], sig)
  }

  ghost function DoTake(s: System, id: nat, sig: Signals): (t: System)
    requires Inv(s) && CanTake(s, id, sig)
    ensures t.f == TakeSection(s.f, s.tokens[id], sig)
    ensures t == s.(f := t.f, ledger := t.ledger, tokens := s.tokens - {id})
    ensures Moved(s, t, [ResultTaken(id)])
  {
    NotifyKeeps(s, sig);
    var s1 := Notify(s, sig);
    TakeKeeps(s1, id);
    var s2 := TakeNamed(s1, id);
    ReplayOne(s.ledger, ResultTaken(id));
    RecycleKeeps(s2, s.tokens[id]);
    Recycle(s2, s.tokens[id])
  }

  // ---------------------------------------------------------------- dispatch

  /** The admitting section found a free record and was not refused. */
  ghost predicate CanDispatch(s: System, caller: Option<nat>, policy: DispatchPolicy, work: nat, n: nat,
                              ok: bool, sig: Signals) {
    && CallerMayCall(s, caller) && Later(s, sig)
    && HasCapacity(s.f.core) && !Refused(s.f, policy)
    && DispatchReached(s.f, caller, policy, work, n, ok, sig)
  }

  /** Admission and the scheduling pass. */
  ghost function Admitting(s: System, caller: Option<nat>, work: nat, n: nat, sig: Signals): (t: System)
    requires Inv(s) && CallerMayCall(s, caller) && Later(s, sig) && HasCapacity(s.f.core)
    requires CanSchedule(AdmitPrefix(s.f, work, sig), caller, n)
    requires ScheduleReached(AdmitPrefix(s.f, work, sig), caller, n, sig)
    ensures t.f == Schedule(AdmitPrefix(s.f, work, sig), caller, n)
    ensures t.tokens == s.tokens[|s.ledger.tasks| := AdmittedRef(s.f.core)]
    ensures t.unreturned == s.unreturned && t.ops == s.ops && t.roles == s.roles && t.clear == s.clear
    ensures Moved(s, t, [Admitted(work)] + GrantEvents(AdmitPrefix(s.f, work, sig), caller, n))
  {
    NotifyKeeps(s, sig);
    var s1 := Notify(s, sig);
    EnterKeeps(s1, work);
    var s2 := Enter(s1, work);
    ReplayOne(s.ledger, Admitted(work));
    var t := GrantAll(s2, caller, n);
    MovedTwice(s, s2, t, [Admitted(work)], GrantEvents(s2.f, caller, n));
    t
  }

  /** Nobody can already be waiting for a Task that is just being admitted. */
  lemma {:induction false} NewTaskUnwaited(s: System, t: System, id: nat)
    requires Inv(s) && Inv(t) && id == |s.ledger.tasks|
    requires t.ops == s.ops && t.unreturned == s.unreturned && id in t.tokens
    ensures id !in s.unreturned && Waiting(t.f.waiters, t.tokens[id]) == {}
    ensures forall k :: 0 <= k < |s.ops| && s.ops[k].Waiter? ==> s.ops[k].id != id
  {
    if id in s.unreturned { TokenKnown(s, id); }
    forall k | 0 <= k < |s.ops| && s.ops[k].Waiter? ensures s.ops[k].id != id {
      assert OpOk(s.f.core, s.ids, s.f.waiters, s.tokens, s.unreturned, s.ops, k);
      NamedKnown(s, s.ops[k].id, s.ops[k].ref);
    }
    TokenKnown(t, id);
    forall j | 0 <= j < |t.f.waiters| ensures !Matches(t.f.waiters, j, t.tokens[id]) {
      assert SlotOk(t.f.waiters, t.ops, j);
      if t.f.waiters[j].Active? {
        assert OpOk(t.f.core, t.ids, t.f.waiters, t.tokens, t.unreturned, t.ops, t.f.waiters[j].context);
      }
    }
  }

  function SettleEvents(id: nat, end: DispatchEnd): seq<Event> {
    if end.Withdrawn? then [OwnerReleased(id)] else []
  }

  ghost predicate CanSettle(g: System, id: nat, end: DispatchEnd, caller: Option<nat>) {
    && Inv(g) && id in g.tokens && id !in g.unreturned && CallerMayCall(g, caller)
    && Waiting(g.f.waiters, g.tokens[id]) == {}
    && (forall k :: 0 <= k < |g.ops| && g.ops[k].Waiter? ==> g.ops[k].id != id)
    && (end.MustWait? ==> caller.Some?)
    && (end.Withdrawn? ==> WithdrawReached(g.f, g.tokens[id], g.f.signals))
  }

  /** What the admitting section does with its Task once the scheduling pass is over. */
  ghost function Settle(g: System, id: nat, end: DispatchEnd, caller: Option<nat>): (t: System)
    requires CanSettle(g, id, end, caller)
    ensures t.f == SettleSection(g.f, g.tokens[id], end)
    ensures Moved(g, t, SettleEvents(id, end)) && t.roles == g.roles
    ensures end.HandleReturned? ==> t == g
    ensures end.Withdrawn? ==> t == g.(f := t.f, ledger := t.ledger, tokens := g.tokens - {id})
    ensures end.MustWait? ==> t == BeginWaiting(g, caller.value, id)
  {
    match end
    case HandleReturned => g
    case Withdrawn(_) => GiveUp(g, id)
    case MustWait => BeginWaitingKeeps(g, caller.value, id); BeginWaiting(g, caller.value, id)
  }

  function DispatchEvents(f: Facility, id: nat, caller: Option<nat>, policy: DispatchPolicy, work: nat, n: nat,
                          ok: bool, sig: Signals): seq<Event>
    requires HasCapacity(f.core) && CanSchedule(AdmitPrefix(f, work, sig), caller, n)
  {
    var f1 := AdmitPrefix(f, work, sig);
    var end := DispatchEnds(Schedule(f1, caller, n), AdmittedRef(f.core), policy, ok, caller);
    ([Admitted(work)] + GrantEvents(f1, caller, n)) + SettleEvents(id, end)
  }

  /** After admission and the pass the section may settle its Task. */
  lemma {:induction false} AdmittedSettles(s: System, caller: Option<nat>, policy: DispatchPolicy, work: nat, n: nat,
      ok: bool, sig: Signals, g: System)
    requires Inv(s) && CanDispatch(s, caller, policy, work, n, ok, sig) && g == Admitting(s, caller, work, n, sig)
    ensures CanSettle(g, |s.ledger.tasks|, DispatchEnds(g.f, AdmittedRef(s.f.core), policy, ok, caller), caller)
  {
    NewTaskUnwaited(s, g, |s.ledger.tasks|);
  }

  ghost function DoDispatch(s: System, caller: Option<nat>, policy: DispatchPolicy, work: nat, n: nat,
                            ok: bool, sig: Signals): (t: System)
    requires Inv(s) && CanDispatch(s, caller, policy, work, n, ok, sig)
    ensures t.f == DispatchSection(s.f, caller, policy, work, n, ok, sig)
    ensures t.roles == s.roles && t.clear == s.clear
    ensures Moved(s, t, DispatchEvents(s.f, |s.ledger.tasks|, caller, policy, work, n, ok, sig))
  {
    var id := |s.ledger.tasks|;
    var g := Admitting(s, caller, work, n, sig);
    AdmittedSettles(s, caller, policy, work, n, ok, sig, g);
    var end := DispatchEnds(g.f, AdmittedRef(s.f.core), policy, ok, caller);
    var t := Settle(g, id, end, caller);
    MovedTwice(s, g, t, [Admitted(work)] + GrantEvents(AdmitPrefix(s.f, work, sig), caller, n), SettleEvents(id, end));
    t
  }

  // ---------------------------------------------------------------- registration never fails

  /** A context that is not waiting for a Task always finds a free Task registration slot. */
  lemma {:induction false} WaiterRoom(s: System, c: nat)
    requires Inv(s) && c < |s.ops| && !s.ops[c].Waiter?
    ensures FirstInactive(s.f.waiters) < |s.f.waiters|
  {
    if FirstInactive(s.f.waiters) == |s.f.waiters| {
      var n := |s.ops|;
      forall j | 0 <= j < n
        ensures s.f.waiters[j].Active? && s.f.waiters[j].context < n
        ensures s.ops[s.f.waiters[j].context].Waiter? && s.ops[s.f.waiters[j].context].slot == j
      {
        assert SlotOk(s.f.waiters, s.ops, j);
      }
      var a := seq(n, j requires 0 <= j < n => s.f.waiters[j].context);
      Pigeonhole(a, n, c);
    }
  }

  /** Likewise for the registrations of contexts waiting for capacity. */
  lemma {:induction false} CapacityRoom(s: System, c: nat)
    requires Inv(s) && c < |s.ops| && !s.ops[c].AwaitingCapacity?
    ensures FirstInactive(s.f.admission) < |s.f.admission|
  {
    if FirstInactive(s.f.admission) == |s.f.admission| {
      var n := |s.ops|;
      forall j | 0 <= j < n
        ensures s.f.admission[j].Active? && s.f.admission[j].context < n
        ensures s.ops[s.f.admission[j].context].AwaitingCapacity? && s.ops[s.f.admission[j].context].slot == j
      {
        assert CapacitySlotOk(s.f.admission, s.ops, j);
      }
      var a := seq(n, j requires 0 <= j < n => s.f.admission[j].context);
      Pigeonhole(a, n, c);
    }
  }

  // ---------------------------------------------------------------- waiting for a Task

  /** A wait for a Task looks for an interruption before it does anything else. */
  ghost predicate CanEnterTaskWait(s: System, c: nat, id: nat) {
    MayCall(s, c) && c in s.clear && id in s.tokens && id !in s.unreturned
  }

  ghost function DoEnterTaskWait(s: System, c: nat, id: nat): (t: System)
    requires Inv(s) && CanEnterTaskWait(s, c, id)
    ensures t.f == TaskWaitEntry(s.f, c, s.tokens[id]) && Moved(s, t, [])
    ensures t.roles == s.roles && t.clear == s.clear
  {
    TokenKnown(s, id);
    NamedKnown(s, id, s.tokens[id]);
    if Terminated(s.f.core, s.tokens[id]) then s
    else
      WaiterRoom(s, c);
      RegisterKeeps(s, c, ForTerminal, id, s.tokens[id]);
      RegisterFor(s, c, ForTerminal, id, s.tokens[id])
  }

  ghost predicate CanLeaveWait(s: System, c: nat, sig: Signals) {
    && c < |s.ops| && s.ops[c].Waiter? && Later(s, sig)
    && UnregisterReached(s.f, s.ops[c].slot, s.ops[c].ref, sig)
  }

  ghost function LeaveWait(s: System, c: nat, sig: Signals): (t: System)
    requires Inv(s) && CanLeaveWait(s, c, sig)
    ensures t.f == UnregisterSection(s.f, s.ops[c].slot, s.ops[c].ref, sig) && Moved(s, t, [])
    ensures t.roles == s.roles && t.clear == s.clear && t.ops == s.ops[c := Idle]
  {
    NotifyKeeps(s, sig);
    DepartKeeps(Notify(s, sig), c);
    var s1 := Depart(Notify(s, sig), c);
    RecycleKeeps(s1, s.ops[c].ref);
    Recycle(s1, s.ops[c].ref)
  }

  ghost predicate CanRecheckTask(s: System, c: nat, leave: bool, sig: Signals) {
    && c < |s.ops| && s.ops[c].Waiter? && s.ops[c].kind.ForTerminal?
    && (Terminated(s.f.core, s.ops[c].ref) || leave ==> CanLeaveWait(s, c, sig))
  }

  ghost function DoRecheckTask(s: System, c: nat, leave: bool, sig: Signals): (t: System)
    requires Inv(s) && CanRecheckTask(s, c, leave, sig)
    ensures t.f == TaskWaitRecheck(s.f, s.ops[c].slot, s.ops[c].ref, leave, sig)
    ensures Moved(s, t, []) && t.roles == s.roles && t.clear == s.clear
  {
    assert OpOk(s.f.core, s.ids, s.f.waiters, s.tokens, s.unreturned, s.ops, c);
    if Terminated(s.f.core, s.ops[c].ref) || leave then LeaveWait(s, c, sig)
    else SetParkedKeeps(s, c, true); SetParked(s, c, true)
  }

  // ---------------------------------------------------------------- waiting for a Worker grant

  ghost function DoEnterGrantWait(s: System, c: nat): (t: System)
    requires Inv(s) && c < |s.ops| && s.ops[c].Entering?
    ensures t.f == GrantWaitEntry(s.f, c, s.ops[c].ref) && Moved(s, t, [])
    ensures t.roles == s.roles && t.clear == s.clear
  {
    var op := s.ops[c];
    assert OpOk(s.f.core, s.ids, s.f.waiters, s.tokens, s.unreturned, s.ops, c);
    TokenKnown(s, op.id);
    NamedKnown(s, op.id, op.ref);
    if Granted(s.f.core, op.ref) then DepartKeeps(s, c); Depart(s, c)
    else
      WaiterRoom(s, c);
      assert CallerOk(s.ops, s.roles, c);
      RegisterKeeps(s, c, ForGrant, op.id, op.ref);
      RegisterFor(s, c, ForGrant, op.id, op.ref)
  }

  /** Once the dispatching context has left, nobody waits for a Task whose handle was never returned. */
  lemma {:induction false} UnreturnedUnwaited(s: System, c: nat)
    requires Inv(s) && c < |s.ops| && s.ops[c].Waiter? && s.ops[c].kind.ForGrant?
    ensures s.ops[c].id in s.tokens && s.tokens[s.ops[c].id] == s.ops[c].ref
    ensures Waiting(Depart(s, c).f.waiters, s.ops[c].ref) == {}
  {
    var t := Depart(s, c);
    assert OpOk(s.f.core, s.ids, s.f.waiters, s.tokens, s.unreturned, s.ops, c);
    forall j | 0 <= j < |t.f.waiters| ensures !Matches(t.f.waiters, j, s.ops[c].ref) {
      assert SlotOk(s.f.waiters, s.ops, j);
      if j != s.ops[c].slot && s.f.waiters[j].Active? {
        assert OpOk(s.f.core, s.ids, s.f.waiters, s.tokens, s.unreturned, s.ops, s.f.waiters[j].context);
      }
    }
  }

  /** A context that has been asked to stop leaves the wait, if it does not find the grant. */
  ghost predicate CanRecheckGrant(s: System, c: nat, leave: bool, sig: Signals) {
    && c < |s.ops| && s.ops[c].Waiter? && s.ops[c].kind.ForGrant? && Later(s, sig)
    && var f1 := s.f.(waiters := Unregister(s.f.waiters, s.ops[c].slot));
    && (Granted(s.f.core, s.ops[c].ref) ==> CanLeaveWait(s, c, sig))
    && (!Granted(s.f.core, s.ops[c].ref) && !leave ==> !CancellationRequestedFor(s.f.core, c))
    && (!Granted(s.f.core, s.ops[c].ref) && leave ==>
          WithdrawReached(f1, s.ops[c].ref, sig))
  }

  /** The dispatch call gives up: the Task was never granted and is withdrawn. */
  ghost function AbandonWait(s: System, c: nat, sig: Signals): (t: System)
    requires Inv(s) && CanRecheckGrant(s, c, true, sig) && !Granted(s.f.core, s.ops[c].ref)
    ensures t.f == GrantWaitRecheck(s.f, s.ops[c].slot, s.ops[c].ref, true, sig)
    ensures Moved(s, t, [OwnerReleased(s.ops[c].id)])
    ensures t.roles == s.roles && t.clear == s.clear && t.ops == s.ops[c := Idle]
  {
    NotifyKeeps(s, sig);
    var s1 := Notify(s, sig);
    UnreturnedUnwaited(s1, c);
    DepartKeeps(s1, c);
    GiveUp(Depart(s1, c), s.ops[c].id)
  }

  ghost function DoRecheckGrant(s: System, c: nat, leave: bool, sig: Signals): (t: System)
    requires Inv(s) && CanRecheckGrant(s, c, leave, sig)
    ensures t.f == GrantWaitRecheck(s.f, s.ops[c].slot, s.ops[c].ref, leave, sig)
    ensures Moved(s, t, RecheckGrantEvents(s.f, s.ops[c].id, s.ops[c].ref, leave)) && t.roles == s.roles
    ensures if Granted(s.f.core, s.ops[c].ref) || leave then t.clear == s.clear else t.clear == s.clear + {c}
  {
    assert OpOk(s.f.core, s.ids, s.f.waiters, s.tokens, s.unreturned, s.ops, c);
    if Granted(s.f.core, s.ops[c].ref) then LeaveWait(s, c, sig)
    else if leave then AbandonWait(s, c, sig)
    else SetParkedKeeps(s, c, true); SeenClear(SetParked(s, c, true), c)
  }

  function RecheckGrantEvents(f: Facility, id: nat, ref: Ref, leave: bool): seq<Event> {
    if !Granted(f.core, ref) && leave then [OwnerReleased(id)] else []
  }

  // ---------------------------------------------------------------- waiting for capacity

  lemma {:induction false} CapacityIsSomeFree(c: Core)
    ensures HasCapacity(c) <==> SomeFree(c)
  {
    if HasCapacity(c) { assert c.records[FirstFree(c.records)].free; }
  }

  ghost function DoEnterCapacityWait(s: System, c: nat): (t: System)
    requires Inv(s) && MayCall(s, c)
    ensures t.f == CapacityWaitEntry(s.f, c) && Moved(s, t, []) && t.roles == s.roles && t.clear == s.clear
  {
    CapacityIsSomeFree(s.f.core);
    if HasCapacity(s.f.core) then s
    else CapacityRoom(s, c); RegisterCapacityKeeps(s, c); RegisterCapacity(s, c)
  }

  /** A context that has been asked to stop leaves the wait, if it does not find capacity. */
  ghost predicate CanRecheckCapacity(s: System, c: nat, leave: bool) {
    && c < |s.ops| && s.ops[c].AwaitingCapacity?
    && (!HasCapacity(s.f.core) && !leave ==> !CancellationRequestedFor(s.f.core, c))
  }

  ghost function DoRecheckCapacity(s: System, c: nat, leave: bool): (t: System)
    requires Inv(s) && CanRecheckCapacity(s, c, leave)
    ensures t.f == CapacityWaitRecheck(s.f, s.ops[c].slot, leave) && Moved(s, t, []) && t.roles == s.roles
    ensures if HasCapacity(s.f.core) || leave then t.clear == s.clear else t.clear == s.clear + {c}
  {
    CapacityIsSomeFree(s.f.core);
    if HasCapacity(s.f.core) || leave then DepartCapacityKeeps(s, c); DepartCapacity(s, c)
    else SetParkedKeeps(s, c, true); SeenClear(SetParked(s, c, true), c)
  }

  // ---------------------------------------------------------------- interruption

  /** Context c has found no interruption. */
  ghost function SeenClear(s: System, c: nat): (t: System)
    ensures Inv(s) ==> Inv(t)
  {
    s.(clear := s.clear + {c})
  }

  /** Context c looks whether the Task it runs was asked to stop, outside or inside a wait. */
  ghost function DoLookAround(s: System, c: nat): (t: System)
    requires Inv(s) && c < |s.ops|
    ensures t.f == s.f && Moved(s, t, []) && t.roles == s.roles
  {
    if CancellationRequestedFor(s.f.core, c) then s.(clear := s.clear - {c}) else SeenClear(s, c)
  }

  // ---------------------------------------------------------------- signals

  /** Context c is on its signal.  In a wait for a Task it looks for an interruption first, each time; in a
      wait for a grant or for capacity it does not before it blocks for the first time. */
  ghost predicate Blocked(s: System, c: nat) {
    && c < |s.ops| && (s.ops[c].Waiter? || s.ops[c].AwaitingCapacity?) && s.ops[c].parked
    && (s.ops[c].Waiter? && s.ops[c].kind.ForTerminal? ==> c in s.clear)
  }

  /** A blocked wait returns, with or without the context's signal. */
  ghost predicate CanReturnFromSignal(s: System, c: nat, consumed: bool) {
    Blocked(s, c) && (consumed ==> c in s.f.signals.latched)
  }

  ghost function DoReturnFromSignal(s: System, c: nat, consumed: bool): (t: System)
    requires Inv(s) && CanReturnFromSignal(s, c, consumed)
    ensures Moved(s, t, []) && t.roles == s.roles && t.clear == s.clear - {c}
  {
    assert CallerOk(s.ops, s.roles, c);
    SetParkedKeeps(s, c, false);
    var s1 := SetParked(s, c, false);
    if consumed then ConsumeKeeps(s1, c); Consume(s1, c) else s1.(clear := s.clear - {c})
  }

  ghost function DoStray(s: System, c: nat): (t: System)
    requires Inv(s)
    ensures Moved(s, t, []) && t.roles == s.roles
  {
    var sig := s.f.signals.(latched := s.f.signals.latched + {c});
    NotifyKeeps(s, sig);
    Notify(s, sig)
  }

  ghost function DoSpend(s: System, c: nat): (t: System)
    requires Inv(s) && MayCall(s, c)
    ensures Moved(s, t, []) && t.roles == s.roles
  {
    ConsumeKeeps(s, c);
    Consume(s, c)
  }

  // ---------------------------------------------------------------- Workers

  /** The scan for a Worker's assignment finds exactly the record that Worker was granted. */
  lemma {:induction false} AssignedIsServing(s: System, w: nat, k: nat)
    requires Inv(s) && IsWorker(s.f, w) && k <= |s.f.core.records|
    requires forall i :: 0 <= i < k ==> s.serving[w] != Some(i)
    ensures s.serving[w].None? ==> AssignedFrom(s.f.core, w, k) == None
    ensures s.serving[w].Some? ==>
      s.serving[w].value < |s.f.core.records|
      && AssignedFrom(s.f.core, w, k) == Some(RefOf(s.f.core, s.serving[w].value))
    decreases |s.f.core.records| - k
  {
    assert WorkerOk(s.f.core, s.ids, s.f.workers, s.f.first, s.serving, s.roles, w);
    if k < |s.f.core.records| {
      assert RunOk(s.f.core, s.serving, k) && RowOk(s.f.core, s.ids, s.home, s.ledger, k);
      if s.serving[w] != Some(k) { AssignedIsServing(s, w, k + 1); }
    }
  }

  /** Only Worker w's own program counter may have changed. */
  ghost predicate OnlyRole(s: System, t: System, w: nat) {
    |t.roles| == |s.roles| && forall v :: 0 <= v < |s.roles| && v != w ==> t.roles[v] == s.roles[v]
  }

  ghost predicate CanLook(s: System, w: nat) {
    IsWorker(s.f, w) && w < |s.roles| && s.roles[w].Looking?
  }

  /** The trampoline looks for its assignment under the lock and either takes it up or parks. */
  ghost function DoLook(s: System, w: nat): (t: System)
    requires Inv(s) && CanLook(s, w)
    ensures OnlyRole(s, t, w)
    ensures t.f == s.f && Moved(s, t, [])
  {
    assert WorkerOk(s.f.core, s.ids, s.f.workers, s.f.first, s.serving, s.roles, w);
    assert CallerOk(s.ops, s.roles, w);
    AssignedIsServing(s, w, 0);
    var role := match Assigned(s.f.core, w)
                case None => Parked
                case Some(ref) => Invoking(s.ids[ref.index], ref);
    SetRoleKeeps(s, w, role);
    SetRole(s, w, role)
  }

  ghost predicate CanWorkerWake(s: System, w: nat, consumed: bool) {
    IsWorker(s.f, w) && w < |s.roles| && s.roles[w].Parked? && (consumed ==> w in s.f.signals.latched)
  }

  ghost function DoWorkerWake(s: System, w: nat, consumed: bool): (t: System)
    requires Inv(s) && CanWorkerWake(s, w, consumed)
    ensures OnlyRole(s, t, w)
    ensures Moved(s, t, [])
  {
    assert WorkerOk(s.f.core, s.ids, s.f.workers, s.f.first, s.serving, s.roles, w);
    assert CallerOk(s.ops, s.roles, w);
    SetRoleKeeps(s, w, Looking);
    var s1 := SetRole(s, w, Looking);
    if consumed then ConsumeKeeps(s1, w); Consume(s1, w) else s1
  }

  /** A trampoline that sees shutdown returns before it looks for assigned work. */
  ghost function DoExit(s: System, w: nat): (t: System)
    requires Inv(s) && CanLook(s, w)
    ensures OnlyRole(s, t, w)
    ensures t.f == s.f && Moved(s, t, [])
  {
    assert WorkerOk(s.f.core, s.ids, s.f.workers, s.f.first, s.serving, s.roles, w);
    assert CallerOk(s.ops, s.roles, w);
    SetRoleKeeps(s, w, Exited);
    SetRole(s, w, Exited)
  }

  ghost predicate CanStart(s: System, w: nat, n: nat, ok: bool, sig: Signals) {
    && IsWorker(s.f, w) && w < |s.roles| && s.roles[w].Unlisted? && Later(s, sig)
    && PassReached(MarkAvailable(s.f, w).(signals := sig), Some(w), n, ok, sig)
  }

  /** The Worker enters the available set. */
  ghost function Starting(s: System, w: nat, sig: Signals): (t: System)
    requires Inv(s) && IsWorker(s.f, w) && w < |s.roles| && s.roles[w].Unlisted? && Later(s, sig)
    ensures t.f == MarkAvailable(s.f, w).(signals := sig)
    ensures t.roles == s.roles[w := Looking] && Moved(s, t, []) && t.clear == s.clear
  {
    assert CallerOk(s.ops, s.roles, w);
    NotifyKeeps(s, sig);
    var s1 := Notify(s, sig);
    ListKeeps(s1, w);
    List(s1, w)
  }

  ghost function DoStart(s: System, w: nat, n: nat, ok: bool, sig: Signals): (t: System)
    requires Inv(s) && CanStart(s, w, n, ok, sig)
    ensures OnlyRole(s, t, w)
    ensures t.f == Schedule(MarkAvailable(s.f, w).(signals := sig), Some(w), n) && t.clear == s.clear
    ensures Moved(s, t, GrantEvents(MarkAvailable(s.f, w).(signals := sig), Some(w), n))
  {
    GrantAll(Starting(s, w, sig), Some(w), n)
  }

  ghost predicate CanReturn(s: System, w: nat) {
    w < |s.roles| && w < |s.ops| && s.roles[w].Invoking? && s.ops[w].Idle?
  }

  ghost function DoReturn(s: System, w: nat, outcome: InvocationOutcome, value: nat): (t: System)
    requires Inv(s) && CanReturn(s, w)
    ensures OnlyRole(s, t, w)
    ensures Moved(s, t, [Invoked(s.roles[w].id, outcome, value)])
  {
    ReturnKeeps(s, w, outcome, value);
    ReplayOne(s.ledger, Invoked(s.roles[w].id, outcome, value));
    Return(s, w, outcome, value)
  }

  ghost predicate CanComplete(s: System, w: nat, n: nat, ok: bool, sig: Signals) {
    && w < |s.roles| && s.roles[w].Returned? && Later(s, sig)
    && var ref := s.roles[w].ref;
    && CompleteReached(s.f, ref, s.roles[w].outcome, sig)
    && PassReached(CompletePrefix(s.f, w, ref, s.roles[w].outcome, sig), Some(w), n, ok, sig)
  }

  /** Publication, reclamation and the return of the Worker to the available set. */
  ghost function Completing(s: System, w: nat, sig: Signals): (t: System)
    requires Inv(s) && w < |s.roles| && s.roles[w].Returned? && Later(s, sig)
    requires CompleteReached(s.f, s.roles[w].ref, s.roles[w].outcome, sig)
    ensures t.f == CompletePrefix(s.f, w, s.roles[w].ref, s.roles[w].outcome, sig)
    ensures t.roles == s.roles[w := Looking] && t.ops == s.ops && t.tokens == s.tokens && t.clear == s.clear
    ensures Moved(s, t, [Published(s.roles[w].id, s.roles[w].outcome)])
  {
    assert CallerOk(s.ops, s.roles, w);
    InvokingKnown(s, w);
    NotifyKeeps(s, sig);
    var s1 := Notify(s, sig);
    PostKeeps(s1, w);
    var s2 := Post(s1, w);
    ReplayOne(s.ledger, Published(s.roles[w].id, s.roles[w].outcome));
    RecycleKeeps(s2, s.roles[w].ref);
    var s3 := Recycle(s2, s.roles[w].ref);
    ListKeeps(s3, w);
    List(s3, w)
  }

  ghost function DoComplete(s: System, w: nat, n: nat, ok: bool, sig: Signals): (t: System)
    requires Inv(s) && CanComplete(s, w, n, ok, sig)
    ensures OnlyRole(s, t, w)
    ensures t.f == Schedule(CompletePrefix(s.f, w, s.roles[w].ref, s.roles[w].outcome, sig), Some(w), n)
    ensures t.clear == s.clear
    ensures Moved(s, t, [Published(s.roles[w].id, s.roles[w].outcome)]
              + GrantEvents(CompletePrefix(s.f, w, s.roles[w].ref, s.roles[w].outcome, sig), Some(w), n))
  {
    var s1 := Completing(s, w, sig);
    var t := GrantAll(s1, Some(w), n);
    MovedTwice(s, s1, t, [Published(s.roles[w].id, s.roles[w].outcome)], GrantEvents(s1.f, Some(w), n));
    t
  }

  // ---------------------------------------------------------------- shutdown

  function ShutdownEvents(c: Core, ids: seq<nat>, k: nat): seq<Event>
    requires k <= |c.records|
    decreases |c.records| - k
  {
    if k == |c.records| then []
    else if c.records[k].free then ShutdownEvents(c, ids, k + 1)
    else [CancelRequested(IdAt(ids, k))] + ShutdownEvents(Cancel(c, RefOf(c, k)), ids, k + 1)
  }

  ghost function CancelSlot(s: System, k: nat): (t: System)
    requires Inv(s) && Live(s.f.core, k) && SlotReached(s.f, k, s.f.signals)
    ensures t.f == s.f.(core := Cancel(s.f.core, RefOf(s.f.core, k))) && t == s.(f := t.f, ledger := t.ledger)
    ensures Moved(s, t, [CancelRequested(IdAt(s.ids, k))])
  {
    var ref := RefOf(s.f.core, k);
    assert Names(s.f.core, s.ids, s.ids[k], ref);
    NamedKnown(s, s.ids[k], ref);
    CancelKeeps(s, s.ids[k], ref);
    ReplayOne(s.ledger, CancelRequested(s.ids[k]));
    CancelNamed(s, s.ids[k], ref)
  }

  lemma {:induction false} CancelSlotReached(f: Facility, g: Facility, k: nat, sig: Signals)
    requires k < |f.core.records| && ShutdownReached(f, k, sig)
    requires g == f.(core := Cancel(f.core, RefOf(f.core, k)))
    ensures ShutdownReached(g, k + 1, sig)
  {
    forall i: nat | k + 1 <= i ensures SlotReached(g, i, sig) { assert SlotReached(f, i, sig); }
  }

  ghost function CancelRest(s: System, k: nat): (t: System)
    requires Inv(s) && k <= |s.f.core.records| && ShutdownReached(s.f, k, s.f.signals)
    ensures t.f == s.f.(core := CancelFrom(s.f.core, k)) && t == s.(f := t.f, ledger := t.ledger)
    ensures Moved(s, t, ShutdownEvents(s.f.core, s.ids, k))
    decreases |s.f.core.records| - k
  {
    if k == |s.f.core.records| then s
    else if s.f.core.records[k].free then CancelRest(s, k + 1)
    else
      assert SlotReached(s.f, k, s.f.signals);
      var s1 := CancelSlot(s, k);
      CancelSlotReached(s.f, s1.f, k, s.f.signals);
      var t := CancelRest(s1, k + 1);
      MovedTwice(s, s1, t, [CancelRequested(IdAt(s.ids, k))], ShutdownEvents(s1.f.core, s.ids, k + 1));
      t
  }

  ghost predicate CanShutdown(s: System, sig: Signals) {
    Later(s, sig) && ShutdownReached(s.f.(signals := sig), 0, sig) && Reached(sig, Waiting(s.f.admission, ()))
  }

  ghost function DoShutdown(s: System, sig: Signals): (t: System)
    requires Inv(s) && CanShutdown(s, sig)
    ensures t.f == ShutdownSection(s.f, sig) && t.roles == s.roles && t.clear == s.clear && t.ops == s.ops
    ensures Moved(s, t, ShutdownEvents(s.f.core, s.ids, 0))
  {
    NotifyKeeps(s, sig);
    CancelRest(Notify(s, sig), 0)
  }
}
