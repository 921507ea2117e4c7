/** Whole runs: any number of handles, waiting contexts and Workers, interleaved in any order, with
    any outcome of every notification. */
module TaskRuns {
  import opened Registrations
  import opened TaskModel
  import opened TaskLedger
  import opened TaskProtocol
  import opened TaskSteps
  import opened TaskRest
  import opened TaskInterrupts

  /** Calls on handles and the facility. */
  datatype CallAction =
    | Dispatch(caller: Option<nat>, policy: DispatchPolicy, work: nat, n: nat, ok: bool, sig: Signals)
    | CancelTask(id: nat, sig: Signals)
    | ReleaseTask(id: nat, sig: Signals)
    | TakeResult(id: nat, sig: Signals)
    | BeginShutdown(sig: Signals)

  /** What contexts inside a blocking call do, and what happens to their signals. */
  datatype WaitAction =
    | EnterGrantWait(c: nat)
    | RecheckGrant(c: nat, leave: bool, sig: Signals)
    | EnterTaskWait(c: nat, id: nat)
    | RecheckTask(c: nat, leave: bool, sig: Signals)
    | EnterCapacityWait(c: nat)
    | RecheckCapacity(c: nat, leave: bool)
    | LookAround(c: nat)
    | ReturnFromSignal(c: nat, consumed: bool)
    | StrayWake(c: nat)
    | SpendSignal(c: nat)

  /** What Worker trampolines do. */
  datatype WorkerAction =
    | WorkerStart(w: nat, n: nat, ok: bool, sig: Signals)
    | WorkerLook(w: nat)
    | WorkerWake(w: nat, consumed: bool)
    | WorkerExit(w: nat)
    | CallableReturn(w: nat, outcome: InvocationOutcome, value: nat)
    | WorkerComplete(w: nat, n: nat, ok: bool, sig: Signals)

  datatype Action = Call(call: CallAction) | Wait(wait: WaitAction) | Work(work: WorkerAction)

  ghost predicate CanCall(s: System, a: CallAction) {
    match a
    case Dispatch(caller, policy, work, n, ok, sig) => CanDispatch(s, caller, policy, work, n, ok, sig)
    case CancelTask(id, sig) => CanCancel(s, id, sig)
    case ReleaseTask(id, sig) => CanRelease(s, id, sig)
    case TakeResult(id, sig) => CanTake(s, id, sig)
    case BeginShutdown(sig) => CanShutdown(s, sig)
  }

  ghost predicate CanWait(s: System, a: WaitAction) {
    match a
    case EnterGrantWait(c) => c < |s.ops| && s.ops[c].Entering?
    case RecheckGrant(c, leave, sig) => CanRecheckGrant(s, c, leave, sig)
    case EnterTaskWait(c, id) => CanEnterTaskWait(s, c, id)
    case RecheckTask(c, leave, sig) => CanRecheckTask(s, c, leave, sig)
    case EnterCapacityWait(c) => MayCall(s, c)
    case RecheckCapacity(c, leave) => CanRecheckCapacity(s, c, leave)
    case LookAround(c) => c < |s.ops|
    case ReturnFromSignal(c, consumed) => CanReturnFromSignal(s, c, consumed)
    case StrayWake(c) => true
    case SpendSignal(c) => MayCall(s, c)
  }

  ghost predicate CanWork(s: System, a: WorkerAction) {
    match a
    case WorkerStart(w, n, ok, sig) => CanStart(s, w, n, ok, sig)
    case WorkerLook(w) => CanLook(s, w)
    case WorkerWake(w, consumed) => CanWorkerWake(s, w, consumed)
    case WorkerExit(w) => CanLook(s, w)
    case CallableReturn(w, _, _) => CanReturn(s, w)
    case WorkerComplete(w, n, ok, sig) => CanComplete(s, w, n, ok, sig)
  }

  ghost predicate CanAct(s: System, a: Action) {
    match a
    case Call(b) => CanCall(s, b)
    case Wait(b) => CanWait(s, b)
    case Work(b) => CanWork(s, b)
  }

  ghost function DoCall(s: System, a: CallAction): (t: System)
    requires Inv(s) && CanCall(s, a)
    ensures Moved(s, t, CallEvents(s, a)) && t.roles == s.roles
  {
    match a
    case Dispatch(caller, policy, work, n, ok, sig) => DoDispatch(s, caller, policy, work, n, ok, sig)
    case CancelTask(id, sig) => DoCancel(s, id, sig)
    case ReleaseTask(id, sig) => DoRelease(s, id, sig)
    case TakeResult(id, sig) => DoTake(s, id, sig)
    case BeginShutdown(sig) => DoShutdown(s, sig)
  }

  ghost function DoWait(s: System, a: WaitAction): (t: System)
    requires Inv(s) && CanWait(s, a)
    ensures Moved(s, t, WaitEvents(s, a)) && t.roles == s.roles
  {
    match a
    case EnterGrantWait(c) => DoEnterGrantWait(s, c)
    case RecheckGrant(c, leave, sig) => DoRecheckGrant(s, c, leave, sig)
    case EnterTaskWait(c, id) => DoEnterTaskWait(s, c, id)
    case RecheckTask(c, leave, sig) => DoRecheckTask(s, c, leave, sig)
    case EnterCapacityWait(c) => DoEnterCapacityWait(s, c)
    case RecheckCapacity(c, leave) => DoRecheckCapacity(s, c, leave)
    case LookAround(c) => DoLookAround(s, c)
    case ReturnFromSignal(c, consumed) => DoReturnFromSignal(s, c, consumed)
    case StrayWake(c) => DoStray(s, c)
    case SpendSignal(c) => DoSpend(s, c)
  }

  ghost function DoWork(s: System, a: WorkerAction): (t: System)
    requires Inv(s) && CanWork(s, a)
    ensures Moved(s, t, WorkEvents(s, a)) && OnlyRole(s, t, a.w)
  {
    match a
    case WorkerStart(w, n, ok, sig) => DoStart(s, w, n, ok, sig)
    case WorkerLook(w) => DoLook(s, w)
    case WorkerWake(w, consumed) => DoWorkerWake(s, w, consumed)
    case WorkerExit(w) => DoExit(s, w)
    case CallableReturn(w, outcome, value) => DoReturn(s, w, outcome, value)
    case WorkerComplete(w, n, ok, sig) => DoComplete(s, w, n, ok, sig)
  }

  // What the ideal facility does while the real one takes a step.

  ghost function CallEvents(s: System, a: CallAction): seq<Event>
    requires CanCall(s, a)
  {
    match a
    case Dispatch(caller, policy, work, n, ok, sig) =>
      DispatchEvents(s.f, |s.ledger.tasks|, caller, policy, work, n, ok, sig)
    case CancelTask(id, _) => [CancelRequested(id)]
    case ReleaseTask(id, _) => [OwnerReleased(id)]
    case TakeResult(id, _) => [ResultTaken(id)]
    case BeginShutdown(_) => ShutdownEvents(s.f.core, s.ids, 0)
  }

  ghost function WaitEvents(s: System, a: WaitAction): seq<Event>
    requires CanWait(s, a)
  {
    match a
    case RecheckGrant(c, leave, _) => RecheckGrantEvents(s.f, s.ops[c].id, s.ops[c].ref, leave)
    case _ => []
  }

  ghost function WorkEvents(s: System, a: WorkerAction): seq<Event>
    requires CanWork(s, a)
  {
    match a
    case WorkerStart(w, n, _, sig) => GrantEvents(MarkAvailable(s.f, w).(signals := sig), Some(w), n)
    case CallableReturn(w, outcome, value) => [Invoked(s.roles[w].id, outcome, value)]
    case WorkerComplete(w, n, _, sig) =>
      [Published(s.roles[w].id, s.roles[w].outcome)]
      + GrantEvents(CompletePrefix(s.f, w, s.roles[w].ref, s.roles[w].outcome, sig), Some(w), n)
    case _ => []
  }

  ghost function Events(s: System, a: Action): seq<Event>
    requires CanAct(s, a)
  {
    match a
    case Call(b) => CallEvents(s, b)
    case Wait(b) => WaitEvents(s, b)
    case Work(b) => WorkEvents(s, b)
  }

  /** Refinement, one step: the invariant is kept and the ledger does what the ideal facility does. */
  ghost function Act(s: System, a: Action): (t: System)
    requires Inv(s) && CanAct(s, a)
    ensures Moved(s, t, Events(s, a))
    ensures if a.Work? then OnlyRole(s, t, a.work.w) else t.roles == s.roles
  {
    match a
    case Call(b) => DoCall(s, b)
    case Wait(b) => DoWait(s, b)
    case Work(b) => DoWork(s, b)
  }

  lemma {:induction false} CallRests(s: System, a: CallAction)
    requires Inv(s) && Rest(s) && CanCall(s, a)
    ensures Rest(DoCall(s, a))
  {
    match a
    case Dispatch(caller, policy, work, n, ok, sig) => DispatchRest(s, caller, policy, work, n, ok, sig);
    case CancelTask(id, sig) => CancelRests(s, id, sig);
    case ReleaseTask(id, sig) => ReleaseRests(s, id, sig);
    case TakeResult(id, sig) => TakeRests(s, id, sig);
    case BeginShutdown(sig) => ShutdownRest(s, sig);
  }

  lemma {:induction false} WaitRests(s: System, a: WaitAction)
    requires Inv(s) && Rest(s) && CanWait(s, a)
    ensures Rest(DoWait(s, a))
  {
    match a
    case EnterGrantWait(c) => EntriesRest(s, c, 0);
    case RecheckGrant(c, leave, sig) => WaitsRest(s, c, leave, sig);
    case EnterTaskWait(c, id) => EntriesRest(s, c, id);
    case RecheckTask(c, leave, sig) => WaitsRest(s, c, leave, sig);
    case EnterCapacityWait(c) => CapacityRest(s, c, false);
    case RecheckCapacity(c, leave) => CapacityRest(s, c, leave);
    case LookAround(c) =>
    case ReturnFromSignal(c, consumed) => SameTidy(s.f, DoWait(s, a).f);
    case StrayWake(c) => SameTidy(s.f, DoWait(s, a).f);
    case SpendSignal(c) => SameTidy(s.f, DoWait(s, a).f);
  }

  lemma {:induction false} WorkRests(s: System, a: WorkerAction)
    requires Inv(s) && Rest(s) && CanWork(s, a)
    ensures Rest(DoWork(s, a))
  {
    match a
    case WorkerStart(w, n, ok, sig) => WorkersRest(s, w, n, ok, sig);
    case WorkerLook(w) =>
    case WorkerWake(w, consumed) => SameTidy(s.f, DoWork(s, a).f);
    case WorkerExit(w) =>
    case CallableReturn(w, outcome, value) => ReturnRest(s, w, outcome, value);
    case WorkerComplete(w, n, ok, sig) => WorkersRest(s, w, n, ok, sig);
  }

  lemma {:induction false} StepRests(s: System, a: Action)
    requires Inv(s) && Rest(s) && CanAct(s, a)
    ensures Rest(Act(s, a))
  {
    match a
    case Call(b) => CallRests(s, b);
    case Wait(b) => WaitRests(s, b);
    case Work(b) => WorkRests(s, b);
  }

  lemma {:induction false} CallAlerts(s: System, a: CallAction)
    requires Inv(s) && Alert(s) && CanCall(s, a)
    ensures Alert(DoCall(s, a))
  {
    match a
    case Dispatch(caller, policy, work, n, ok, sig) => DispatchAlerts(s, caller, policy, work, n, ok, sig);
    case CancelTask(id, sig) => CancelAlerts(s, id, sig);
    case ReleaseTask(id, sig) => GiveUpAlerts(s, id, sig);
    case TakeResult(id, sig) => GiveUpAlerts(s, id, sig);
    case BeginShutdown(sig) => ShutdownAlerts(s, sig);
  }

  lemma {:induction false} WaitAlerts(s: System, a: WaitAction)
    requires Inv(s) && Alert(s) && CanWait(s, a)
    ensures Alert(DoWait(s, a))
  {
    match a
    case EnterGrantWait(c) => GrantWaitAlerts(s, c, false, s.f.signals);
    case RecheckGrant(c, leave, sig) => GrantWaitAlerts(s, c, leave, sig);
    case EnterTaskWait(c, id) => TaskWaitAlerts(s, c, id, false, s.f.signals);
    case RecheckTask(c, leave, sig) => TaskWaitAlerts(s, c, 0, leave, sig);
    case EnterCapacityWait(c) => CapacityWaitAlerts(s, c, false);
    case RecheckCapacity(c, leave) => CapacityWaitAlerts(s, c, leave);
    case LookAround(c) => SignalAlerts(s, c, false);
    case ReturnFromSignal(c, consumed) => SignalAlerts(s, c, consumed);
    case StrayWake(c) => SignalAlerts(s, c, false);
    case SpendSignal(c) => SignalAlerts(s, c, false);
  }

  lemma {:induction false} WorkAlerts(s: System, a: WorkerAction)
    requires Inv(s) && Alert(s) && CanWork(s, a)
    ensures Alert(DoWork(s, a))
  {
    match a
    case WorkerStart(w, n, ok, sig) => StartAlerts(s, w, n, ok, sig);
    case WorkerLook(w) => TurnsAlert(s, w, Abandoned, 0);
    case WorkerWake(w, consumed) => SignalAlerts(s, w, consumed);
    case WorkerExit(w) => TurnsAlert(s, w, Abandoned, 0);
    case CallableReturn(w, outcome, value) => TurnsAlert(s, w, outcome, value);
    case WorkerComplete(w, n, ok, sig) => CompletionAlerts(s, w, n, ok, sig);
  }

  lemma {:induction false} StepAlerts(s: System, a: Action)
    requires Inv(s) && Alert(s) && CanAct(s, a)
    ensures Alert(Act(s, a))
  {
    match a
    case Call(b) => CallAlerts(s, b);
    case Wait(b) => WaitAlerts(s, b);
    case Work(b) => WorkAlerts(s, b);
  }

  // ---------------------------------------------------------------- runs

  /** A facility of the given capacities as its constructors leave it: every record free and
      decoding as Queued, ownerless, Phase false, and no Worker available yet. */
  ghost function Init(records: nat, workers: nat, first: nat, contexts: nat): System
    requires first + workers <= contexts
  {
    System(
      Facility(
        Core(seq(records, i => Record(true, false, Body(Queued, false, None, Empty))), []),
        seq(contexts, i => Inactive), seq(contexts, i => Inactive),
        seq(workers, i => false), first, Signals({}, {})),
      seq(records, i => 0), [], seq(contexts, i => None), NO_TASKS, map[], map[],
      seq(contexts, i => Idle),
      seq(contexts, i => if first <= i < first + workers then Unlisted else NotWorker), {})
  }

  lemma {:induction false} InitInv(records: nat, workers: nat, first: nat, contexts: nat)
    requires first + workers <= contexts
    ensures Inv(Init(records, workers, first, contexts)) && Rest(Init(records, workers, first, contexts))
    ensures Alert(Init(records, workers, first, contexts))
  {
    var s := Init(records, workers, first, contexts);
    forall w: nat ensures WorkerOk(s.f.core, s.ids, s.f.workers, s.f.first, s.serving, s.roles, w) {}
    forall i: nat ensures RowOk(s.f.core, s.ids, s.home, s.ledger, i) {}
  }

  /** One step of a run. */
  ghost predicate Steps(s: System, a: Action, t: System) { Inv(s) && CanAct(s, a) && t == Act(s, a) }

  ghost predicate StepAt(states: seq<System>, acts: seq<Action>, i: nat) {
    i < |acts| && i + 1 < |states| ==> Steps(states[i], acts[i], states[i + 1])
  }

  /** A run: the actions acts, taken one after the other, and the states they lead through. */
  ghost predicate IsRun(states: seq<System>, acts: seq<Action>) {
    |states| == |acts| + 1 && forall i: nat :: StepAt(states, acts, i)
  }

  ghost predicate RunFromTo(states: seq<System>, acts: seq<Action>, s: System, t: System) {
    IsRun(states, acts) && states[0] == s && states[|acts|] == t
  }

  /** Some run leads from s to t. */
  ghost predicate LeadsTo(s: System, t: System) { exists states, acts :: RunFromTo(states, acts, s, t) }

  /** The events of the ideal facility during the first n steps. */
  ghost function RunEvents(states: seq<System>, acts: seq<Action>, n: nat): seq<Event>
    requires IsRun(states, acts) && n <= |acts|
  {
    if n == 0 then []
    else
      assert StepAt(states, acts, n - 1);
      RunEvents(states, acts, n - 1) + Events(states[n - 1], acts[n - 1])
  }

  lemma {:induction false} StepTaken(states: seq<System>, acts: seq<Action>, i: nat, s: System, t: System)
    requires IsRun(states, acts) && i < |acts| && states[i] == s && states[i + 1] == t
    ensures Steps(s, acts[i], t)
  {
    assert StepAt(states, acts, i);
  }

  lemma {:induction false} StepRefines(s0: System, s: System, a: Action, t: System, es: seq<Event>)
    requires Moved(s0, s, es) && Steps(s, a, t)
    ensures Moved(s0, t, es + Events(s, a))
  {
    MovedTwice(s0, s, t, es, Events(s, a));
  }

  lemma {:induction false} RunEventsSnoc(states: seq<System>, acts: seq<Action>, i: nat, s: System)
    requires IsRun(states, acts) && i < |acts| && states[i] == s
    ensures CanAct(s, acts[i])
    ensures RunEvents(states, acts, i + 1) == RunEvents(states, acts, i) + Events(s, acts[i])
  {
    assert StepAt(states, acts, i);
  }

  /** Refinement over whole runs: every run of the facility is a run of the ideal ledger. */
  lemma {:induction false} RunRefines(states: seq<System>, acts: seq<Action>, n: nat, s: System, t: System)
    requires IsRun(states, acts) && n <= |acts| && states[0] == s && states[n] == t && Inv(s)
    ensures Moved(s, t, RunEvents(states, acts, n))
  {
    if n > 0 {
      var i, m := n - 1, states[n - 1];
      RunRefines(states, acts, i, s, m);
      StepTaken(states, acts, i, m, t);
      StepRefines(s, m, acts[i], t, RunEvents(states, acts, i));
      RunEventsSnoc(states, acts, i, m);
    }
  }

  lemma {:induction false} StepStaysAtRest(s: System, a: Action, t: System)
    requires Rest(s) && Alert(s) && Steps(s, a, t)
    ensures Inv(t) && Rest(t) && Alert(t)
  {
    StepRests(s, a);
    StepAlerts(s, a);
  }

  lemma {:induction false} RunRests(states: seq<System>, acts: seq<Action>, n: nat, t: System)
    requires IsRun(states, acts) && n <= |acts| && states[n] == t
    requires Inv(states[0]) && Rest(states[0]) && Alert(states[0])
    ensures Inv(t) && Rest(t) && Alert(t)
  {
    if n > 0 {
      var i, m := n - 1, states[n - 1];
      RunRests(states, acts, i, m);
      StepTaken(states, acts, i, m, t);
      StepStaysAtRest(m, acts[i], t);
    }
  }

  lemma {:induction false} StepGiven(states: seq<System>, acts: seq<Action>, i: nat, s: System, a: Action, t: System)
    requires i < |acts| && i + 1 < |states| && states[i] == s && acts[i] == a && states[i + 1] == t && Steps(s, a, t)
    ensures StepAt(states, acts, i)
  {
  }

  lemma {:induction false} SnocSteps(states: seq<System>, acts: seq<Action>, t: System, a: Action, u: System, i: nat)
    requires IsRun(states, acts) && states[|acts|] == t && Steps(t, a, u)
    ensures StepAt(states + [u], acts + [a], i)
  {
    var states', acts' := states + [u], acts + [a];
    if i < |acts| {
      var s, v := states[i], states[i + 1];
      StepTaken(states, acts, i, s, v);
      assert states'[i] == s && acts'[i] == acts[i] && states'[i + 1] == v;
      StepGiven(states', acts', i, s, acts[i], v);
    } else if i == |acts| {
      assert states'[i] == t && acts'[i] == a && states'[i + 1] == u;
      StepGiven(states', acts', i, t, a, u);
    }
  }

  lemma {:induction false} RunSnoc(states: seq<System>, acts: seq<Action>, s: System, t: System, a: Action, u: System)
    requires RunFromTo(states, acts, s, t) && Steps(t, a, u)
    ensures RunFromTo(states + [u], acts + [a], s, u)
  {
    forall i: nat { SnocSteps(states, acts, t, a, u, i); }
  }

  lemma {:induction false} RunLeads(states: seq<System>, acts: seq<Action>, s: System, t: System)
    requires RunFromTo(states, acts, s, t)
    ensures LeadsTo(s, t)
  {
  }

  /** Doing nothing is a run. */
  lemma {:induction false} EmptyRun(s: System)
    ensures LeadsTo(s, s)
  {
    assert RunFromTo([s], [], s, s);
  }

  /** Any action that is possible at the end of a run extends it. */
  lemma {:induction false} RunsExtend(s: System, t: System, a: Action, u: System)
    requires LeadsTo(s, t) && Steps(t, a, u)
    ensures LeadsTo(s, u)
  {
    var states, acts :| RunFromTo(states, acts, s, t);
    RunSnoc(states, acts, s, t, a, u);
    RunLeads(states + [u], acts + [a], s, u);
  }
}
