/** A Dedicated Thread among its callers: start callers that look at the lifecycle before and inside
    the mutex, bootstrap callers that read and publish the lifecycle in separate critical sections,
    stop requests, joiners that remember one Phase bit, and the trampoline.  Activations are numbered
    from one; the byte keeps one bit. */
module ThreadProtocol {
  import opened Registrations
  import opened Pigeonholes
  import opened ThreadModel
  import opened Lifecycle

  /** A caller of StartActivation: before the first look, after it, inside the mutex, and past the
      second look. */
  datatype StartStage = NotStarting | LookedOnce | Inside | Cleared

  /** Where a caller of CommitInitialization, of the infrastructure Start, of BeginShutdown or of
      FinalizeShutdown stands between its look at the lifecycle and what it publishes. */
  datatype BootStage =
    | Away
    | SawUninitialized
    | SawInitialized
    | ResourcesStarted
    | ResourcesFailed
    | SawStarted
    | BegunShutdown
    | SawShuttingDown

  datatype Trampoline = Looking | Parked | Invoking(activation: nat, phase: bool) | Exited

  /** again says that the joiner has come back from its signal before. */
  datatype Join = NotJoining | Joining(activation: nat, captured: bool, slot: nat, parked: bool, again: bool)

  /** holder is the start caller inside the thread's mutex; hosted says that some bootstrap caller has
      started the thread's execution context, winner which one is about to publish Started, and
      everStarted that Started was published; stopTraversed, that a shutdown traversal has requested the
      thread to stop.  published and invoked record which activations were published as stopped and whose
      callables were entered; asked holds the contexts that are to be interrupted, clear those that have
      looked for an interruption, found none and have taken no signal since. */
  datatype System = System(
    t: Thread,
    own: nat,
    lifecycle: InfrastructureState,
    hosted: bool,
    winner: Option<nat>,
    everStarted: bool,
    holder: Option<nat>,
    starts: seq<StartStage>,
    boots: seq<BootStage>,
    stopTraversed: bool,
    trampoline: Trampoline,
    joins: seq<Join>,
    activations: nat,
    published: set<nat>,
    invoked: seq<nat>,
    asked: set<nat>,
    clear: set<nat>)

  // ---------------------------------------------------------------- the invariant

  /** The Phase bit is the parity of the number of activations. */
  ghost predicate CountOk(c: Control, activations: nat) {
    && (c.phase <==> activations % 2 == 1)
    && (c.state.NeverStarted? <==> activations == 0)
  }

  ghost predicate PublishedAt(c: Control, activations: nat, published: set<nat>, k: nat) {
    k in published <==> 1 <= k <= activations && (k == activations ==> c.state.Stopped?)
  }

  ghost predicate InvokedOk(c: Control, activations: nat, published: set<nat>, trampoline: Trampoline,
                            invoked: seq<nat>)
  {
    && (forall j, k :: 0 <= j < k < |invoked| ==> invoked[j] < invoked[k])
    && (forall k :: 0 <= k < |invoked| ==> 1 <= invoked[k] <= activations)
    && (IsActive(c) && !trampoline.Invoking? ==> activations !in invoked)
    && (trampoline.Invoking? ==> trampoline.activation in invoked)
    && (forall k :: k in published ==> k in invoked)
  }

  ghost predicate TrampolineOk(t: Thread, own: nat, activations: nat, trampoline: Trampoline) {
    && (trampoline.Invoking? ==>
          trampoline.activation == activations && IsActive(t.control) && trampoline.phase == t.control.phase)
    && (trampoline.Parked? && IsActive(t.control) ==> own in t.signals.latched)
  }

  ghost predicate JoinOk(t: Thread, activations: nat, joins: seq<Join>, c: nat) {
    c < |joins| && joins[c].Joining? ==>
      var j := joins[c];
      && 1 <= j.activation <= activations && (j.captured <==> j.activation % 2 == 1)
      && j.slot < |t.joiners| && t.joiners[j.slot] == Active(j.captured, c)
      && (j.parked && IsActivationStopped(t.control, j.captured) ==> c in t.signals.latched + t.signals.failed)
  }

  ghost predicate JoinSlotOk(t: Thread, joins: seq<Join>, k: nat) {
    k < |t.joiners| && t.joiners[k].Active? ==>
      t.joiners[k].context < |joins| && joins[t.joiners[k].context].Joining? && joins[t.joiners[k].context].slot == k
  }

  /** Started has been published and overwritten; it never comes back. */
  ghost predicate Over(s: System) { s.everStarted && !CanActivate(s.lifecycle) }

  ghost predicate StartOk(holder: Option<nat>, starts: seq<StartStage>, stopTraversed: bool, c: nat) {
    c < |starts| ==>
      && (holder == Some(c) <==> starts[c].Inside? || starts[c].Cleared?)
      && (stopTraversed ==> !starts[c].Cleared?)
  }

  ghost predicate BootOk(s: System, i: nat) {
    i < |s.boots| ==>
      && (s.winner == Some(i) <==> s.boots[i].ResourcesStarted?)
      && (s.boots[i].SawStarted? ==> s.everStarted)
      && (s.boots[i].BegunShutdown? || s.boots[i].SawShuttingDown? ==> Over(s))
  }

  ghost predicate GateOk(s: System) {
    && (forall c: nat :: StartOk(s.holder, s.starts, s.stopTraversed, c))
    && (forall i: nat :: BootOk(s, i))
    && (CanActivate(s.lifecycle) || s.lifecycle.ShuttingDown? || s.lifecycle.ShutdownComplete? ==> s.everStarted)
    && (s.everStarted ==> s.hosted && s.winner.None?) && (s.winner.Some? ==> s.hosted)
    && (s.stopTraversed ==> Over(s) && !s.t.control.state.Running?)
  }

  ghost predicate JoinsOk(s: System) {
    && |s.t.joiners| == |s.joins| && s.own < |s.joins|
    && (forall c: nat :: JoinOk(s.t, s.activations, s.joins, c))
    && (forall k: nat :: JoinSlotOk(s.t, s.joins, k))
    && (s.joins[s.own].Joining? ==> s.trampoline.Invoking?)
  }

  ghost predicate ActivationsOk(s: System) {
    && CountOk(s.t.control, s.activations)
    && (forall k: nat :: PublishedAt(s.t.control, s.activations, s.published, k))
    && InvokedOk(s.t.control, s.activations, s.published, s.trampoline, s.invoked)
    && TrampolineOk(s.t, s.own, s.activations, s.trampoline)
  }

  ghost predicate Sound(s: System) { ActivationsOk(s) && JoinsOk(s) && GateOk(s) }

  ghost predicate AlertAt(s: System, c: nat) { Alerted(c in s.asked, s.t.signals, s.clear, c) }

  ghost predicate AlertsOk(s: System) { forall c: nat :: AlertAt(s, c) }

  ghost predicate Inv(s: System) { Sound(s) && AlertsOk(s) }

  // ---------------------------------------------------------------- steps

  datatype Action =
    | StartLook(c: nat)
    | StartEnter(c: nat)
    | StartLookAgain(c: nat)
    | StartCommit(c: nat, woken: bool, sig: Signals)
    | BootLook(i: nat)
    | BootResources(i: nat, reached: bool, works: bool)
    | BootPublish(i: nat)
    | BootTraverse(i: nat, sig: Signals)
    | StopRequest(sig: Signals)
    | TrampolineLook
    | TrampolineWake(consumed: bool)
    | TrampolineExit
    | CallableReturn(sig: Signals)
    | JoinEnter(c: nat)
    | JoinReturn(c: nat, consumed: bool)
    | JoinLook(c: nat, leave: bool)
    | StrayWake(c: nat)
    | SpendSignal(c: nat)
    | Ask(c: nat, woken: bool)
    | Unask(c: nat)
    | LookAround(c: nat)

  /** Joiner c is on its signal: it has looked for an interruption since it last came back, if it ever came
      back; before it blocks for the first time it does not look. */
  ghost predicate OnSignal(s: System, c: nat) {
    && c < |s.joins| && s.joins[c].Joining? && s.joins[c].parked
    && (s.joins[c].again ==> c in s.clear)
  }

  ghost predicate CanAct(s: System, a: Action) {
    match a
    case StartLook(c) => c < |s.starts| && s.starts[c].NotStarting?
    case StartEnter(c) => c < |s.starts| && s.starts[c].LookedOnce? && s.holder.None?
    case StartLookAgain(c) => c < |s.starts| && s.starts[c].Inside?
    case StartCommit(c, woken, sig) => c < |s.starts| && s.starts[c].Cleared? && StartReached(s.t, s.own, woken, sig)
    case BootLook(i) => i < |s.boots| && s.boots[i].Away?
    case BootResources(i, _, _) => i < |s.boots| && s.boots[i].SawInitialized?
    case BootPublish(i) => i < |s.boots| && Publishes(s.boots[i]).Some?
    case BootTraverse(i, sig) =>
      i < |s.boots| && s.boots[i].BegunShutdown? && s.holder.None? && StopReached(s.t, s.own, sig)
    case StopRequest(sig) => s.holder.None? && StopReached(s.t, s.own, sig)
    case TrampolineLook => s.trampoline.Looking? && s.hosted && s.holder.None?
    case TrampolineWake(consumed) => s.trampoline.Parked? && (consumed ==> s.own in s.t.signals.latched)
    case TrampolineExit => s.trampoline.Looking? && s.hosted && ShouldTerminate(s.lifecycle)
    case CallableReturn(sig) =>
      && s.trampoline.Invoking? && s.holder.None? && s.own < |s.joins| && s.joins[s.own].NotJoining?
      && PublishReached(s.t, s.trampoline.phase, sig)
    case JoinEnter(c) =>
      c < |s.joins| && s.joins[c].NotJoining? && s.holder.None? && (c == s.own ==> s.trampoline.Invoking?)
    case JoinReturn(c, consumed) => OnSignal(s, c) && (consumed ==> c in s.t.signals.latched)
    case JoinLook(c, leave) => c < |s.joins| && s.joins[c].Joining? && s.holder.None?
    case StrayWake(c) => true
    case SpendSignal(c) => c < |s.joins| && s.joins[c].NotJoining? && (c == s.own ==> s.trampoline.Invoking?)
    case Ask(_, _) => true
    case Unask(_) => true
    case LookAround(c) => true
  }

  /** The lifecycle state a bootstrap caller is about to publish, whatever has happened since it looked. */
  function Publishes(stage: BootStage): Option<InfrastructureState> {
    match stage
    case SawUninitialized => Some(Initialized)
    case ResourcesStarted => Some(InfrastructureState.Started)
    case ResourcesFailed => Some(StartRollback)
    case SawStarted => Some(ShuttingDown)
    case SawShuttingDown => Some(ShutdownComplete)
    case _ => None
  }

  /** What a bootstrap caller that finds the lifecycle in this state goes on with. */
  function Seen(lifecycle: InfrastructureState): BootStage {
    match lifecycle
    case Uninitialized => SawUninitialized
    case Initialized => SawInitialized
    case Started => SawStarted
    case ShuttingDown => SawShuttingDown
    case _ => Away
  }

  function Latch(t: Thread, c: nat): Thread {
    t.(signals := t.signals.(latched := t.signals.latched + {c}))
  }

  function Miss(t: Thread, c: nat): Thread {
    t.(signals := t.signals.(failed := t.signals.failed + {c}))
  }

  function Consume(t: Thread, c: nat): Thread {
    t.(signals := t.signals.(latched := t.signals.latched - {c}))
  }

  ghost function DoStart(s: System, a: Action): System
    requires CanAct(s, a)
    requires a.StartLook? || a.StartEnter? || a.StartLookAgain? || a.StartCommit?
  {
    match a
    case StartLook(c) => s.(starts := s.starts[c := if CanActivate(s.lifecycle) then LookedOnce else NotStarting])
    case StartEnter(c) => s.(starts := s.starts[c := Inside], holder := Some(c))
    case StartLookAgain(c) =>
      if CanActivate(s.lifecycle) then s.(starts := s.starts[c := Cleared])
      else s.(starts := s.starts[c := NotStarting], holder := None)
    case StartCommit(c, woken, sig) =>
      s.(t := StartSection(s.t, sig, woken), starts := s.starts[c := NotStarting], holder := None,
         activations := if !IsActive(s.t.control) && woken then s.activations + 1 else s.activations)
  }

  /** Resources are started by whoever comes first: the thread's context starts once in its life, so a
      second caller fails there; reached says whether the first one gets as far, works whether all of its
      resources start. */
  ghost function DoBoot(s: System, a: Action): System
    requires CanAct(s, a)
    requires a.BootLook? || a.BootResources? || a.BootPublish? || a.BootTraverse?
  {
    match a
    case BootLook(i) => s.(boots := s.boots[i := Seen(s.lifecycle)])
    case BootResources(i, reached, works) =>
      if !s.hosted && reached && works
      then s.(hosted := true, winner := Some(i), boots := s.boots[i := ResourcesStarted])
      else s.(hosted := s.hosted || reached, boots := s.boots[i := ResourcesFailed])
    case BootPublish(i) =>
      s.(lifecycle := Publishes(s.boots[i]).value, everStarted := s.everStarted || s.boots[i].ResourcesStarted?,
         winner := if s.boots[i].ResourcesStarted? then None else s.winner,
         boots := s.boots[i := if s.boots[i].SawStarted? then BegunShutdown else Away])
    case BootTraverse(i, sig) =>
      s.(t := StopSection(s.t, sig), boots := s.boots[i := Away], stopTraversed := true)
  }

  ghost function DoRun(s: System, a: Action): System
    requires CanAct(s, a)
    requires a.TrampolineLook? || a.TrampolineWake? || a.TrampolineExit? || a.CallableReturn?
  {
    match a
    case TrampolineLook =>
      if IsActive(s.t.control)
      then s.(trampoline := Invoking(s.activations, s.t.control.phase), invoked := s.invoked + [s.activations])
      else s.(trampoline := Parked)
    case TrampolineWake(consumed) =>
      s.(t := if consumed then Consume(s.t, s.own) else s.t, trampoline := Looking, clear := s.clear - {s.own})
    case TrampolineExit => s.(trampoline := Exited)
    case CallableReturn(sig) =>
      s.(t := PublishSection(s.t, s.trampoline.phase, sig), published := s.published + {s.trampoline.activation},
         trampoline := Looking)
  }

  ghost function DoJoin(s: System, a: Action): System
    requires CanAct(s, a)
    requires a.JoinEnter? || a.JoinReturn? || a.JoinLook?
  {
    match a
    case JoinEnter(c) =>
      if IsActive(s.t.control)
      then s.(t := JoinEntry(s.t, c),
              joins := s.joins[c := Joining(s.activations, s.t.control.phase, FirstInactive(s.t.joiners), true, false)])
      else s
    case JoinReturn(c, consumed) =>
      s.(t := if consumed then Consume(s.t, c) else s.t, clear := s.clear - {c},
         joins := s.joins[c := s.joins[c].(parked := false, again := true)])
    case JoinLook(c, leave) =>
      s.(t := JoinRecheck(s.t, s.joins[c].slot, s.joins[c].captured, leave),
         joins := s.joins[c := if IsActivationStopped(s.t.control, s.joins[c].captured) || leave then NotJoining
                               else s.joins[c].(parked := true)])
  }

  ghost function Act(s: System, a: Action): System
    requires CanAct(s, a)
  {
    match a
    case StopRequest(sig) => s.(t := StopSection(s.t, sig))
    case StrayWake(c) => s.(t := Latch(s.t, c))
    case SpendSignal(c) => s.(t := Consume(s.t, c), clear := s.clear - {c})
    case Ask(c, woken) => s.(asked := s.asked + {c}, t := if woken then Latch(s.t, c) else Miss(s.t, c))
    case Unask(c) => s.(asked := s.asked - {c})
    case LookAround(c) => s.(clear := if c in s.asked then s.clear - {c} else s.clear + {c})
    case StartLook(_) => DoStart(s, a)
    case StartEnter(_) => DoStart(s, a)
    case StartLookAgain(_) => DoStart(s, a)
    case StartCommit(_, _, _) => DoStart(s, a)
    case BootLook(_) => DoBoot(s, a)
    case BootResources(_, _, _) => DoBoot(s, a)
    case BootPublish(_) => DoBoot(s, a)
    case BootTraverse(_, _) => DoBoot(s, a)
    case TrampolineLook => DoRun(s, a)
    case TrampolineWake(_) => DoRun(s, a)
    case TrampolineExit => DoRun(s, a)
    case CallableReturn(_) => DoRun(s, a)
    case JoinEnter(_) => DoJoin(s, a)
    case JoinReturn(_, _) => DoJoin(s, a)
    case JoinLook(_, _) => DoJoin(s, a)
  }

  // ---------------------------------------------------------------- every step keeps the invariant

  /** A context that is not joining always finds a free registration slot. */
  lemma {:induction false} JoinRoom(s: System, c: nat)
    requires JoinsOk(s) && c < |s.joins| && s.joins[c].NotJoining?
    ensures FirstInactive(s.t.joiners) < |s.t.joiners|
  {
    if FirstInactive(s.t.joiners) == |s.t.joiners| {
      var n := |s.joins|;
      forall k | 0 <= k < n
        ensures s.t.joiners[k].Active? && s.t.joiners[k].context < n
        ensures s.joins[s.t.joiners[k].context].Joining? && s.joins[s.t.joiners[k].context].slot == k
      {
        assert JoinSlotOk(s.t, s.joins, k);
      }
      var a := seq(n, k requires 0 <= k < n => s.t.joiners[k].context);
      Pigeonhole(a, n, c);
    }
  }

  lemma {:induction false} StartGateKeeps(s: System, a: Action)
    requires GateOk(s) && CanAct(s, a)
    requires a.StartLook? || a.StartEnter? || a.StartLookAgain? || a.StartCommit?
    ensures GateOk(DoStart(s, a))
  {
    var u := DoStart(s, a);
    assert StartOk(s.holder, s.starts, s.stopTraversed, a.c);
    forall c: nat ensures StartOk(u.holder, u.starts, u.stopTraversed, c) {
      assert StartOk(s.holder, s.starts, s.stopTraversed, c);
    }
    forall i: nat ensures BootOk(u, i) { assert BootOk(s, i); }
  }

  /** A committed start opens the next activation and toggles the Phase. */
  lemma {:induction false} CommitKeeps(s: System, a: Action)
    requires ActivationsOk(s) && JoinsOk(s) && CanAct(s, a) && a.StartCommit?
    ensures ActivationsOk(DoStart(s, a)) && JoinsOk(DoStart(s, a))
  {
    var u := DoStart(s, a);
    forall k: nat ensures PublishedAt(u.t.control, u.activations, u.published, k) {
      assert PublishedAt(s.t.control, s.activations, s.published, k);
    }
    assert s.activations + 1 !in s.invoked;
    forall c: nat ensures JoinOk(u.t, u.activations, u.joins, c) { assert JoinOk(s.t, s.activations, s.joins, c); }
    forall k: nat ensures JoinSlotOk(u.t, u.joins, k) { assert JoinSlotOk(s.t, s.joins, k); }
  }

  lemma {:induction false} StartKeeps(s: System, a: Action)
    requires Sound(s) && CanAct(s, a)
    requires a.StartLook? || a.StartEnter? || a.StartLookAgain? || a.StartCommit?
    ensures Sound(DoStart(s, a))
  {
    StartGateKeeps(s, a);
    if a.StartCommit? { CommitKeeps(s, a); } else { StopKeeps(s, DoStart(s, a)); }
  }

  lemma {:induction false} BootKeeps(s: System, a: Action)
    requires Sound(s) && CanAct(s, a)
    requires a.BootLook? || a.BootResources? || a.BootPublish? || a.BootTraverse?
    ensures Sound(DoBoot(s, a))
  {
    var u := DoBoot(s, a);
    forall c: nat ensures StartOk(u.holder, u.starts, u.stopTraversed, c) {
      assert StartOk(s.holder, s.starts, s.stopTraversed, c);
    }
    assert BootOk(s, a.i);
    forall i: nat ensures BootOk(u, i) { assert BootOk(s, i); }
    StopKeeps(s, u);
  }

  /** A stop request moves no activation on and ends none. */
  lemma {:induction false} StopKeeps(s: System, u: System)
    requires ActivationsOk(s) && JoinsOk(s)
    requires u.t == s.t || (u.t == StopSection(s.t, u.t.signals) && Notified(s.t.signals, u.t.signals))
    requires u.own == s.own && u.trampoline == s.trampoline && u.joins == s.joins
    requires u.activations == s.activations && u.published == s.published && u.invoked == s.invoked
    ensures ActivationsOk(u) && JoinsOk(u)
  {
    forall k: nat ensures PublishedAt(u.t.control, u.activations, u.published, k) {
      assert PublishedAt(s.t.control, s.activations, s.published, k);
    }
    forall c: nat ensures JoinOk(u.t, u.activations, u.joins, c) { assert JoinOk(s.t, s.activations, s.joins, c); }
    forall k: nat ensures JoinSlotOk(u.t, u.joins, k) { assert JoinSlotOk(s.t, s.joins, k); }
  }

  lemma {:induction false} WakeKeeps(s: System, a: Action)
    requires Sound(s) && CanAct(s, a) && (a.TrampolineWake? || a.TrampolineExit?)
    ensures Sound(DoRun(s, a))
  {
    var u := DoRun(s, a);
    forall i: nat ensures BootOk(u, i) { assert BootOk(s, i); }
    forall c: nat ensures JoinOk(u.t, u.activations, u.joins, c) { assert JoinOk(s.t, s.activations, s.joins, c); }
    forall k: nat ensures JoinSlotOk(u.t, u.joins, k) { assert JoinSlotOk(s.t, s.joins, k); }
  }

  lemma {:induction false} LookKeepsSound(s: System, a: Action)
    requires Sound(s) && CanAct(s, a) && a.TrampolineLook?
    ensures Sound(DoRun(s, a))
  {
    var u := DoRun(s, a);
    forall i: nat ensures BootOk(u, i) { assert BootOk(s, i); }
    forall k: nat ensures PublishedAt(u.t.control, u.activations, u.published, k) {
      assert PublishedAt(s.t.control, s.activations, s.published, k);
    }
  }

  lemma {:induction false} ReturnKeeps(s: System, a: Action)
    requires Sound(s) && CanAct(s, a) && a.CallableReturn?
    ensures Sound(DoRun(s, a))
  {
    var u := DoRun(s, a);
    forall i: nat ensures BootOk(u, i) { assert BootOk(s, i); }
    forall k: nat ensures PublishedAt(u.t.control, u.activations, u.published, k) {
      assert PublishedAt(s.t.control, s.activations, s.published, k);
    }
    forall c: nat ensures JoinOk(u.t, u.activations, u.joins, c) {
      assert JoinOk(s.t, s.activations, s.joins, c);
      if c < |s.joins| && s.joins[c].Joining? && s.joins[c].captured == s.trampoline.phase {
        assert Matches(s.t.joiners, s.joins[c].slot, s.trampoline.phase);
      }
    }
    forall k: nat ensures JoinSlotOk(u.t, u.joins, k) { assert JoinSlotOk(s.t, s.joins, k); }
    assert PublishedAt(s.t.control, s.activations, s.published, s.activations);
  }

  lemma {:induction false} JoinEnterKeeps(s: System, a: Action)
    requires Sound(s) && CanAct(s, a) && a.JoinEnter?
    ensures Sound(DoJoin(s, a))
  {
    var u := DoJoin(s, a);
    JoinRoom(s, a.c);
    forall i: nat ensures BootOk(u, i) { assert BootOk(s, i); }
    forall c: nat ensures JoinOk(u.t, u.activations, u.joins, c) { assert JoinOk(s.t, s.activations, s.joins, c); }
    forall k: nat ensures JoinSlotOk(u.t, u.joins, k) { assert JoinSlotOk(s.t, s.joins, k); }
  }

  lemma {:induction false} JoinKeeps(s: System, a: Action)
    requires Sound(s) && CanAct(s, a) && (a.JoinReturn? || a.JoinLook?)
    ensures Sound(DoJoin(s, a))
  {
    var u := DoJoin(s, a);
    forall i: nat ensures BootOk(u, i) { assert BootOk(s, i); }
    forall c: nat ensures JoinOk(u.t, u.activations, u.joins, c) {
      assert JoinOk(s.t, s.activations, s.joins, c) && JoinOk(s.t, s.activations, s.joins, a.c);
    }
    forall k: nat ensures JoinSlotOk(u.t, u.joins, k) {
      assert JoinSlotOk(s.t, s.joins, k) && JoinOk(s.t, s.activations, s.joins, a.c);
    }
  }

  predicate IsSignal(a: Action) {
    a.StrayWake? || a.SpendSignal? || a.StopRequest? || a.Ask? || a.Unask? || a.LookAround?
  }

  lemma {:induction false} SignalKeeps(s: System, a: Action)
    requires Sound(s) && CanAct(s, a) && IsSignal(a)
    ensures Sound(Act(s, a))
  {
    var u := Act(s, a);
    forall i: nat ensures BootOk(u, i) { assert BootOk(s, i); }
    if a.SpendSignal? {
      forall c: nat ensures JoinOk(u.t, u.activations, u.joins, c) { assert JoinOk(s.t, s.activations, s.joins, c); }
      forall k: nat ensures JoinSlotOk(u.t, u.joins, k) { assert JoinSlotOk(s.t, s.joins, k); }
    } else if a.StrayWake? || a.Ask? {
      forall c: nat ensures JoinOk(u.t, u.activations, u.joins, c) { assert JoinOk(s.t, s.activations, s.joins, c); }
      forall k: nat ensures JoinSlotOk(u.t, u.joins, k) { assert JoinSlotOk(s.t, s.joins, k); }
    } else {
      StopKeeps(s, u);
    }
  }

  lemma {:induction false} StepKeeps(s: System, a: Action)
    requires Inv(s) && CanAct(s, a)
    ensures Inv(Act(s, a))
  {
    if a.StartLook? || a.StartEnter? || a.StartLookAgain? || a.StartCommit? { StartKeeps(s, a); }
    else if a.BootLook? || a.BootResources? || a.BootPublish? || a.BootTraverse? { BootKeeps(s, a); }
    else if a.TrampolineLook? { LookKeepsSound(s, a); }
    else if a.TrampolineWake? || a.TrampolineExit? { WakeKeeps(s, a); }
    else if a.CallableReturn? { ReturnKeeps(s, a); }
    else if a.JoinEnter? { JoinEnterKeeps(s, a); }
    else if a.JoinReturn? || a.JoinLook? { JoinKeeps(s, a); }
    else { SignalKeeps(s, a); }
    AlertsKeep(s, a);
  }

  /** A step that takes no signal from those who found no interruption, and lets nobody find none. */
  lemma {:induction false} QuietStep(s: System, u: System)
    requires AlertsOk(s) && u.asked <= s.asked && u.clear <= s.clear
    requires forall c :: c in u.clear && c in s.t.signals.latched ==> c in u.t.signals.latched
    requires s.t.signals.failed <= u.t.signals.failed
    ensures AlertsOk(u)
  {
    forall c: nat ensures AlertAt(u, c) { assert AlertAt(s, c); }
  }

  lemma {:induction false} AlertsKeep(s: System, a: Action)
    requires AlertsOk(s) && CanAct(s, a)
    ensures AlertsOk(Act(s, a))
  {
    if a.StartLook? || a.StartEnter? || a.StartLookAgain? || a.StartCommit? { QuietStep(s, DoStart(s, a)); }
    else if a.BootLook? || a.BootResources? || a.BootPublish? || a.BootTraverse? { QuietStep(s, DoBoot(s, a)); }
    else if a.TrampolineLook? || a.TrampolineWake? || a.TrampolineExit? || a.CallableReturn? {
      QuietStep(s, DoRun(s, a));
    } else if a.JoinEnter? || a.JoinReturn? || a.JoinLook? { QuietStep(s, DoJoin(s, a)); }
    else if a.Ask? || a.LookAround? { LookKeeps(s, a); }
    else { QuietStep(s, Act(s, a)); }
  }

  lemma {:induction false} LookKeeps(s: System, a: Action)
    requires AlertsOk(s) && CanAct(s, a) && (a.Ask? || a.LookAround?)
    ensures AlertsOk(Act(s, a))
  {
    forall c: nat ensures AlertAt(Act(s, a), c) { assert AlertAt(s, c); }
  }
}
