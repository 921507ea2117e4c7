/** Runs that reach what the promises speak about: a Task granted to a Worker that executes it, and the one
    way in which an interruption goes unnoticed. */
module TaskWitnesses {
  import opened Registrations
  import opened TaskModel
  import opened TaskLedger
  import opened TaskProtocol
  import opened TaskSteps
  import opened TaskInterrupts
  import opened TaskRuns
  import opened TaskGuarantees

  const SILENT := Signals({}, {})

  const FREE := Record(true, false, Body(Queued, false, None, Empty))

  function Free(n: nat): seq<Record> { if n == 0 then [] else [FREE] + Free(n - 1) }

  /** A facility of one record in use and a number of unused ones, one Worker and one context, which is the
      Worker's. */
  ghost predicate Small(s: System, record: Record, unused: nat, queue: seq<nat>, available: bool, signals: Signals,
                        role: Role)
  {
    && Reachable(s)
    && s.f == Facility(Core([record] + Free(unused), queue), [Inactive], [Inactive], [available], 0, signals)
    && s.ops == [Idle] && s.roles == [role] && s.unreturned == map[]
  }

  /** One Task is queued, and its handle is live. */
  ghost predicate OneQueued(s: System, unused: nat) {
    && Small(s, Record(false, true, FreshBody(0)), unused, [0], false, SILENT, Unlisted)
    && s.tokens == map[0 := Ref(0, true)] && |s.ids| == 1 + unused && s.ids[0] == 0 && |s.ledger.tasks| == 1
  }

  /** The Task runs on the Worker, inside its callable. */
  ghost predicate OneRunning(s: System, unused: nat, state: OperationalState, signals: Signals) {
    && Small(s, Record(false, true, Body(state, true, Some(0), Callable(0))), unused, [], false, signals,
             Invoking(0, Ref(0, true)))
    && s.tokens == map[0 := Ref(0, true)] && |s.ledger.tasks| == 1
  }

  lemma {:induction false} Take(s: System, a: Action) returns (t: System)
    requires Reachable(s) && CanAct(s, a)
    ensures Inv(s) && t == Act(s, a) && Reachable(t)
  {
    ReachableHolds(s);
    t := Act(s, a);
    ReachableStep(s, a, t);
  }

  lemma {:induction false} BeginOne(unused: nat) returns (s: System)
    ensures Small(s, FREE, unused, [], false, SILENT, Unlisted)
    ensures |s.ids| == 1 + unused && s.tokens == map[] && s.ledger == NO_TASKS
  {
    InitReachable(1 + unused, 1, 0, 1);
    s := Init(1 + unused, 1, 0, 1);
    FreeIs(unused);
    assert s.f.core.records == [FREE] + Free(unused);
    assert s.f.waiters == [Inactive] && s.f.admission == [Inactive] && s.f.workers == [false];
    assert s.ops == [Idle] && s.roles == [Unlisted];
  }

  lemma {:induction false} FreeIs(n: nat)
    ensures Free(n) == seq(n, i => FREE)
  {
    if n > 0 { FreeIs(n - 1); }
  }

  lemma {:induction false} DispatchOneReached(f: Facility, unused: nat)
    requires f.core == Core([FREE] + Free(unused), []) && f.workers == [false]
    ensures HasCapacity(f.core) && DispatchReached(f, None, QueueForever, 0, 0, true, SILENT)
    ensures DispatchSection(f, None, QueueForever, 0, 0, true, SILENT) ==
      f.(core := Core([Record(false, true, FreshBody(0))] + Free(unused), [0]), signals := SILENT)
  {
  }

  lemma {:induction false} DispatchOne(unused: nat) returns (s: System)
    ensures OneQueued(s, unused)
  {
    var init := BeginOne(unused);
    DispatchOneReached(init.f, unused);
    s := Take(init, Call(Dispatch(None, QueueForever, 0, 0, true, SILENT)));
  }

  lemma {:induction false} ListOneReached(f: Facility, unused: nat)
    requires f == Facility(Core([Record(false, true, FreshBody(0))] + Free(unused), [0]), [Inactive], [Inactive],
                           [false], 0, SILENT)
    ensures PassReached(MarkAvailable(f, 0).(signals := SILENT), Some(0), 1, true, SILENT)
    ensures Schedule(MarkAvailable(f, 0).(signals := SILENT), Some(0), 1) ==
      f.(core := Core([Record(false, true, Body(Running, true, Some(0), Callable(0)))] + Free(unused), []))
  {
    var g := MarkAvailable(f, 0).(signals := SILENT);
    var h := GrantNext(g, 0);
    assert h.core.queue == [] && Schedule(h, Some(0), 0) == h && Schedule(g, Some(0), 1) == h;
  }

  lemma {:induction false} ListOne(s: System, unused: nat) returns (t: System)
    requires OneQueued(s, unused)
    ensures Small(t, Record(false, true, Body(Running, true, Some(0), Callable(0))), unused, [], false, SILENT, Looking)
    ensures t.tokens == s.tokens && t.ids == s.ids && |t.ledger.tasks| == 1
  {
    ListOneReached(s.f, unused);
    t := Take(s, Work(WorkerStart(0, 1, true, SILENT)));
    ReachableHolds(t);
  }

  lemma {:induction false} RunOne(unused: nat) returns (t: System)
    ensures OneRunning(t, unused, Running, SILENT)
  {
    var queued := DispatchOne(unused);
    var listed := ListOne(queued, unused);
    t := Take(listed, Work(WorkerLook(0)));
  }

  /** Some run comes to a Task that is granted and executed by its Worker. */
  lemma {:induction false} GrantHappens()
    ensures exists s: System :: Reachable(s) && 0 in s.ledger.granted && s.roles == [Invoking(0, Ref(0, true))]
  {
    var s := RunOne(0);
    ReachableHolds(s);
    InvokingKnown(s, 0);
    GrantAnswerIsHistory(s.ledger, 0);
  }

  lemma {:induction false} FinishOne(s: System) returns (t: System)
    requires OneRunning(s, 0, Running, SILENT)
    ensures Small(t, Record(false, true, Body(Running, true, Some(0), Result(7))), 0, [], false, SILENT,
                  Returned(0, Ref(0, true), Finished))
    ensures t.tokens == s.tokens
  {
    t := Take(s, Work(CallableReturn(0, Finished, 7)));
  }

  lemma {:induction false} CompleteOneReached(f: Facility)
    requires f == Facility(Core([Record(false, true, Body(Running, true, Some(0), Result(7)))], []), [Inactive],
                           [Inactive], [false], 0, SILENT)
    ensures CompleteReached(f, Ref(0, true), Finished, SILENT)
    ensures PassReached(CompletePrefix(f, 0, Ref(0, true), Finished, SILENT), Some(0), 0, true, SILENT)
    ensures Schedule(CompletePrefix(f, 0, Ref(0, true), Finished, SILENT), Some(0), 0) ==
      f.(core := Core([Record(false, true, Body(Completed, true, Some(0), Result(7)))], []), workers := [true])
  {
  }

  ghost predicate HasResult(s: System, id: nat, value: nat) {
    && Reachable(s) && id in s.tokens && StateOf(s.f.core, s.tokens[id]) == TaskCompleted
    && TakeStatusOf(s.f.core, s.tokens[id]) == TakeSucceeded && ResultOf(s.f.core, s.tokens[id]) == Some(value)
  }

  /** Some run comes to a completed Task, whose owner takes what the callable returned. */
  lemma {:induction false} CompletionHappens()
    ensures exists s: System :: HasResult(s, 0, 7)
  {
    var running := RunOne(0);
    var finished := FinishOne(running);
    CompleteOneReached(finished.f);
    var t := Take(finished, Work(WorkerComplete(0, 0, true, SILENT)));
    assert HasResult(t, 0, 7);
  }

  // ---------------------------------------------------------------- an interruption that goes unnoticed

  lemma {:induction false} CancelOneReached(f: Facility, unused: nat)
    requires f == Facility(Core([Record(false, true, Body(Running, true, Some(0), Callable(0)))] + Free(unused), []),
                           [Inactive], [Inactive], [false], 0, SILENT)
    ensures CancelReached(f, Ref(0, true), Signals({0}, {}))
    ensures CancelSection(f, Ref(0, true), Signals({0}, {})) == f.(signals := Signals({0}, {}),
      core := Core([Record(false, true, Body(RunningCancelRequested, true, Some(0), Callable(0)))] + Free(unused), []))
  {
  }

  lemma {:induction false} CancelOne(s: System, unused: nat) returns (t: System)
    requires OneRunning(s, unused, Running, SILENT)
    ensures OneRunning(t, unused, RunningCancelRequested, Signals({0}, {}))
  {
    CancelOneReached(s.f, unused);
    t := Take(s, Call(CancelTask(0, Signals({0}, {}))));
  }

  lemma {:induction false} SpendOne(s: System, unused: nat) returns (t: System)
    requires OneRunning(s, unused, RunningCancelRequested, Signals({0}, {}))
    ensures OneRunning(t, unused, RunningCancelRequested, SILENT)
  {
    t := Take(s, Wait(SpendSignal(0)));
  }

  /** The Task is asked to stop, and its callable takes the signal in some other wait and goes on. */
  lemma {:induction false} AskOne(unused: nat) returns (t: System)
    ensures OneRunning(t, unused, RunningCancelRequested, SILENT)
  {
    var s := RunOne(unused);
    var asked := CancelOne(s, unused);
    t := SpendOne(asked, unused);
  }

  /** What a Worker executes was asked to stop when its record says so. */
  lemma {:induction false} RecordAsks(s: System, w: nat)
    requires Reachable(s) && w < |s.roles| && s.roles[w].Invoking?
    requires s.roles[w].ref.index < |s.f.core.records|
    requires s.f.core.records[s.roles[w].ref.index].body.state.RunningCancelRequested?
    ensures AskedToStop(s, w)
  {
    ReachableHolds(s);
    InvokingKnown(s, w);
  }

  lemma {:induction false} BlockForCapacity(s: System) returns (t: System)
    requires OneRunning(s, 0, RunningCancelRequested, SILENT)
    ensures Reachable(t) && t.ops == [AwaitingCapacity(0, true)] && t.f.signals == SILENT
    ensures t.roles == s.roles && t.f.core == s.f.core
  {
    t := Take(s, Wait(EnterCapacityWait(0)));
  }

  /** The exception of NoLostInterruption is real: the Worker then blocks for capacity with nothing to
      wake it. */
  lemma {:induction false} DeafCapacityWaitHappens()
    ensures exists s: System :: Deaf(s, 0) && s.ops[0].AwaitingCapacity?
  {
    var s := AskOne(0);
    var t := BlockForCapacity(s);
    RecordAsks(t, 0);
    assert Deaf(t, 0);
  }

  lemma {:induction false} DispatchNestedReached(f: Facility, r: Record)
    requires f.core == Core([r, FREE], []) && !r.free && f.workers == [false]
    ensures HasCapacity(f.core) && DispatchReached(f, Some(0), QueueWithTimeout, 0, 0, true, SILENT)
    ensures DispatchSection(f, Some(0), QueueWithTimeout, 0, 0, true, SILENT) ==
      f.(core := Core([r, Record(false, true, FreshBody(0))], [1]), signals := SILENT)
    ensures AdmittedRef(f.core) == Ref(1, true)
  {
  }

  /** The running callable dispatches to its own facility and must wait for a grant. */
  lemma {:induction false} DispatchNested(s: System) returns (t: System)
    requires OneRunning(s, 1, RunningCancelRequested, SILENT)
    ensures Reachable(t) && t.roles == s.roles && t.ops == [Entering(1, Ref(1, true))]
    ensures t.f == s.f.(core := Core([s.f.core.records[0], Record(false, true, FreshBody(0))], [1]))
  {
    assert Free(1) == [FREE];
    DispatchNestedReached(s.f, s.f.core.records[0]);
    t := Take(s, Call(Dispatch(Some(0), QueueWithTimeout, 0, 0, true, SILENT)));
  }

  lemma {:induction false} BlockForGrant(s: System) returns (t: System)
    requires Reachable(s) && s.ops == [Entering(1, Ref(1, true))] && s.f.waiters == [Inactive]
    requires |s.f.core.records| == 2 && s.f.core.records[1] == Record(false, true, FreshBody(0))
    ensures Reachable(t) && t.roles == s.roles && t.f.core == s.f.core && t.f.signals == s.f.signals
    ensures |t.ops| == 1 && t.ops[0].Waiter? && t.ops[0].kind.ForGrant? && t.ops[0].parked
  {
    t := Take(s, Wait(EnterGrantWait(0)));
  }

  /** And so it is for a grant: the callable dispatches to its own facility and blocks there. */
  lemma {:induction false} DeafGrantWaitHappens()
    ensures exists s: System :: Deaf(s, 0) && s.ops[0].Waiter? && s.ops[0].kind.ForGrant?
  {
    var s := AskOne(1);
    var u := DispatchNested(s);
    var t := BlockForGrant(u);
    RecordAsks(t, 0);
    assert Deaf(t, 0);
  }
}
