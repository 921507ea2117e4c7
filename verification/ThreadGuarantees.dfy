/** The promises of a Dedicated Thread, for every state any run can reach: any number of start,
    shutdown and join callers, any number of restarts, any outcome of every wake. */
module ThreadGuarantees {
  import opened Registrations
  import opened Runs
  import opened Lifecycle
  import opened ThreadModel
  import opened ThreadProtocol

  /** A thread as constructed, with its callers outside and the infrastructure not yet started. */
  function Init(contexts: nat, own: nat, starters: nat, bootstraps: nat): System
    requires own < contexts
  {
    System(Thread(FIRST_CONTROL, seq(contexts, i => Inactive), Signals({}, {})), own, Uninitialized, false,
           None, false, None, seq(starters, i => NotStarting), seq(bootstraps, i => Away), false, Looking,
           seq(contexts, i => NotJoining), 0, {}, [], {}, {})
  }

  ghost predicate Next(s: System, t: System) { exists a :: CanAct(s, a) && t == Act(s, a) }

  ghost predicate Reachable(s: System) {
    exists contexts: nat, own: nat, starters: nat, bootstraps: nat ::
      own < contexts && Leads(Next, Init(contexts, own, starters, bootstraps), s)
  }

  lemma {:induction false} ReachableHolds(s: System)
    requires Reachable(s)
    ensures Inv(s)
  {
    var contexts: nat, own: nat, starters: nat, bootstraps: nat :|
      own < contexts && Leads(Next, Init(contexts, own, starters, bootstraps), s);
    forall t, u | Inv(t) && Next(t, u) ensures Inv(u) { NextKeeps(t, u); }
    InvariantHolds(Next, Inv, Init(contexts, own, starters, bootstraps), s);
  }

  lemma {:induction false} NextKeeps(s: System, t: System)
    requires Inv(s) && Next(s, t)
    ensures Inv(t)
  {
    var a :| CanAct(s, a) && t == Act(s, a);
    StepKeeps(s, a);
  }

  lemma {:induction false} ReachableStep(s: System, a: Action)
    requires Reachable(s) && CanAct(s, a)
    ensures Reachable(Act(s, a))
  {
    var contexts: nat, own: nat, starters: nat, bootstraps: nat :|
      own < contexts && Leads(Next, Init(contexts, own, starters, bootstraps), s);
    LeadsOn(Next, Init(contexts, own, starters, bootstraps), s, Act(s, a));
  }

  lemma {:induction false} StartReachable(contexts: nat, own: nat, starters: nat, bootstraps: nat)
    requires own < contexts
    ensures Reachable(Init(contexts, own, starters, bootstraps))
  {
    LeadsNowhere(Next, Init(contexts, own, starters, bootstraps));
  }

  // ---------------------------------------------------------------- join

  /** After any number of restarts a joiner that concludes from its captured Phase bit that its
      activation is over is right. */
  lemma {:induction false} JoinedMeansStopped(s: System, c: nat)
    requires Reachable(s) && c < |s.joins| && s.joins[c].Joining?
    requires IsActivationStopped(s.t.control, s.joins[c].captured)
    ensures s.joins[c].activation in s.published
  {
    ReachableHolds(s);
    assert JoinOk(s.t, s.activations, s.joins, c);
    assert PublishedAt(s.t.control, s.activations, s.published, s.joins[c].activation);
  }

  /** Context c waits for an activation that is over and cannot tell so from the control byte. */
  ghost predicate Misses(s: System, c: nat) {
    && c < |s.joins| && s.joins[c].Joining?
    && s.joins[c].activation in s.published && !IsActivationStopped(s.t.control, s.joins[c].captured)
  }

  /** The control byte alone: n activations in, a joiner that captured activation k misses its end
      exactly when n - k is even and not zero and activation n is running. */
  lemma OnePhaseBitForJoin(c: Control, n: nat, k: nat)
    requires CountOk(c, n) && 1 <= k <= n
    ensures IsActivationStopped(c, k % 2 == 1) <==> (n - k) % 2 == 1 || c.state.Stopped?
  {
  }

  /** The converse fails exactly when an even, non-zero number of restarts followed and one of them
      is running: then, and only then, the Phase bit hides that the captured activation is over. */
  lemma {:induction false} MissedExactlyAfterEvenRestarts(s: System, c: nat)
    requires Reachable(s) && c < |s.joins| && s.joins[c].Joining?
    ensures var k := s.joins[c].activation;
      Misses(s, c) <==> s.activations > k && (s.activations - k) % 2 == 0 && IsActive(s.t.control)
  {
    ReachableHolds(s);
    var k := s.joins[c].activation;
    assert JoinOk(s.t, s.activations, s.joins, c);
    assert PublishedAt(s.t.control, s.activations, s.published, k);
    OnePhaseBitForJoin(s.t.control, s.activations, k);
  }

  /** Start caller 0 outside, nothing running and the trampoline about to look. */
  ghost predicate Quiet(s: System) {
    && Reachable(s) && |s.starts| == 1 && s.starts[0].NotStarting? && s.holder.None?
    && CanActivate(s.lifecycle) && s.hosted && s.trampoline.Looking?
    && s.own < |s.joins| && s.joins[s.own].NotJoining?
  }

  lemma {:induction false} BeginOne(s: System) returns (u: System)
    requires Quiet(s) && !IsActive(s.t.control)
    ensures Quiet(u) && u.t.control == Control(Running, !s.t.control.phase)
    ensures u.joins == s.joins && u.activations == s.activations + 1 && u.own == s.own
    ensures u.t.signals.failed == s.t.signals.failed
  {
    var s1 := Act(s, StartLook(0));
    ReachableStep(s, StartLook(0));
    var s2 := Act(s1, StartEnter(0));
    ReachableStep(s1, StartEnter(0));
    var s3 := Act(s2, StartLookAgain(0));
    ReachableStep(s2, StartLookAgain(0));
    var commit := StartCommit(0, true, Latch(s3.t, s3.own).signals);
    u := Act(s3, commit);
    ReachableStep(s3, commit);
  }

  lemma {:induction false} FinishOne(s: System) returns (u: System)
    requires Quiet(s) && IsActive(s.t.control)
    ensures Quiet(u) && u.t.control == Control(Stopped, s.t.control.phase)
    ensures u.joins == s.joins && u.activations == s.activations && u.own == s.own
  {
    var s1 := Act(s, TrampolineLook);
    ReachableStep(s, TrampolineLook);
    var sig := s1.t.signals.(latched := s1.t.signals.latched + Waiting(s1.t.joiners, s1.trampoline.phase));
    ReachableHolds(s1);
    u := Act(s1, CallableReturn(sig));
    ReachableStep(s1, CallableReturn(sig));
  }

  /** Context c joins the activation that is running. */
  lemma {:induction false} JoinOne(s: System, c: nat) returns (u: System)
    requires Quiet(s) && IsActive(s.t.control) && c < |s.joins| && s.joins[c].NotJoining? && c != s.own
    ensures Quiet(u) && u.t.control == s.t.control && u.activations == s.activations && u.own == s.own
    ensures |u.joins| == |s.joins| && u.joins[c].Joining? && u.joins[c].activation == s.activations
    ensures u.joins[c].parked && !u.joins[c].again
    ensures u.t.signals == s.t.signals && u.asked == s.asked && u.clear == s.clear
  {
    u := Act(s, JoinEnter(c));
    ReachableStep(s, JoinEnter(c));
  }

  /** The miss is real: context 0 joins activation 1, does not get to look until the thread has been
      restarted twice, and then reads its own Phase on a running thread. */
  lemma {:induction false} MissHappens()
    ensures exists s: System :: Reachable(s) && Misses(s, 0)
  {
    var init := Init(2, 1, 1, 3);
    StartReachable(2, 1, 1, 3);
    var initialized := Initialize(init, Away);
    var started := StartUp(initialized, Away);
    var running := BeginOne(started);
    var joined := JoinOne(running, 0);
    var stopped := FinishOne(joined);
    var restarted := BeginOne(stopped);
    var stoppedAgain := FinishOne(restarted);
    var s := BeginOne(stoppedAgain);
    MissedExactlyAfterEvenRestarts(s, 0);
  }

  /** A join that finds the thread stopped joins the latest activation, and that one is over. */
  lemma {:induction false} StoppedMeansPublished(s: System)
    requires Reachable(s) && s.t.control.state.Stopped?
    ensures s.activations in s.published
  {
    ReachableHolds(s);
    assert PublishedAt(s.t.control, s.activations, s.published, s.activations);
  }

  /** A joiner blocked although its captured activation reads as stopped has its signal latched; the
      only excuse is that a notification to that very context failed. */
  lemma {:induction false} NoLostJoin(s: System, c: nat)
    requires Reachable(s) && c < |s.joins| && s.joins[c].Joining? && s.joins[c].parked
    requires IsActivationStopped(s.t.control, s.joins[c].captured)
    ensures c in s.t.signals.latched + s.t.signals.failed
  {
    ReachableHolds(s);
    assert JoinOk(s.t, s.activations, s.joins, c);
  }

  /** A joiner on its signal that is to be interrupted has its signal latched, unless a wake of it failed,
      once it has looked: always after it has come back for the first time. */
  lemma {:induction false} NoLostInterruption(s: System, c: nat)
    requires Reachable(s) && OnSignal(s, c) && c in s.asked && (c in s.clear || s.joins[c].again)
    ensures c in s.t.signals.latched + s.t.signals.failed
  {
    ReachableHolds(s);
    assert AlertAt(s, c);
  }

  /** Joiner c is on its signal although it is to be interrupted, and nothing is going to wake it. */
  ghost predicate Deaf(s: System, c: nat) {
    Reachable(s) && OnSignal(s, c) && c in s.asked && c !in s.t.signals.latched + s.t.signals.failed
  }

  lemma {:induction false} DeafOnlyBeforeTheFirstLook(s: System, c: nat)
    requires Deaf(s, c)
    ensures !s.joins[c].again && c !in s.clear
  {
    if s.joins[c].again || c in s.clear { NoLostInterruption(s, c); }
  }

  /** Context c is asked to stop and takes the signal of that request before it does anything else. */
  lemma {:induction false} AskAndSpend(s: System, c: nat) returns (u: System)
    requires Quiet(s) && c < |s.joins| && s.joins[c].NotJoining? && c != s.own
    ensures Quiet(u) && c in u.asked && c !in u.t.signals.latched && u.t.signals.failed == s.t.signals.failed
    ensures u.t.control == s.t.control && u.joins == s.joins && u.own == s.own
  {
    var s1 := Act(s, Ask(c, true));
    ReachableStep(s, Ask(c, true));
    u := Act(s1, SpendSignal(c));
    ReachableStep(s1, SpendSignal(c));
  }

  /** It does happen: a Worker whose Task was asked to stop, and which has taken the signal elsewhere, joins
      a running thread and blocks with nothing to wake it. */
  lemma {:induction false} DeafJoinHappens()
    ensures exists s: System :: Deaf(s, 0)
  {
    var init := Init(2, 1, 1, 3);
    StartReachable(2, 1, 1, 3);
    var initialized := Initialize(init, Away);
    var started := StartUp(initialized, Away);
    var running := BeginOne(started);
    var asked := AskAndSpend(running, 0);
    var s := JoinOne(asked, 0);
    assert Deaf(s, 0);
  }

  /** Registration for a join never fails. */
  lemma {:induction false} JoinNeverRefused(s: System, c: nat)
    requires Reachable(s) && c < |s.joins| && s.joins[c].NotJoining?
    ensures FirstInactive(s.t.joiners) < |s.t.joiners|
  {
    ReachableHolds(s);
    JoinRoom(s, c);
  }

  // ---------------------------------------------------------------- activations

  /** The activation that returns is always the one the byte shows: publication never finds another
      Phase and never finds the thread not running. */
  lemma {:induction false} PublicationAlwaysMatches(s: System)
    requires Reachable(s) && s.trampoline.Invoking?
    ensures PublicationOf(s.t.control, s.trampoline.phase) == Published
  {
    ReachableHolds(s);
  }

  /** Callables are entered in the order of the activations, each at most once; every published
      activation was entered, and while one runs every earlier one has been published. */
  lemma {:induction false} ActivationsRunOnceInOrder(s: System)
    requires Reachable(s)
    ensures forall j, k :: 0 <= j < k < |s.invoked| ==> s.invoked[j] < s.invoked[k]
    ensures forall k :: k in s.published ==> k in s.invoked
    ensures forall k: nat :: 1 <= k < s.activations ==> k in s.published
  {
    ReachableHolds(s);
    forall k: nat | 1 <= k < s.activations ensures k in s.published {
      assert PublishedAt(s.t.control, s.activations, s.published, k);
    }
  }

  /** A trampoline about to block while an activation is waiting for it has its signal latched. */
  lemma {:induction false} NoLostStart(s: System)
    requires Reachable(s) && s.trampoline.Parked? && IsActive(s.t.control)
    ensures s.own in s.t.signals.latched
  {
    ReachableHolds(s);
  }

  // ---------------------------------------------------------------- the shutdown gate

  /** Once a shutdown traversal has requested the thread to stop, no start caller is past its second
      look and the thread is not running unasked. */
  ghost predicate GateShut(s: System) {
    && s.stopTraversed
    && (s.t.control.state.NeverStarted? || s.t.control.state.Stopped? || s.t.control.state.RunningStopRequested?)
  }

  lemma {:induction false} NoStartPastTheGate(s: System, a: Action)
    requires GateOk(s) && s.stopTraversed
    ensures a.StartCommit? ==> !CanAct(s, a)
  {
    if a.StartCommit? { assert StartOk(s.holder, s.starts, s.stopTraversed, a.c); }
  }

  /** The traversal's stop request is out and activation n is the latest, for good. */
  ghost predicate ShutSince(n: nat, s: System) { Inv(s) && GateShut(s) && s.activations == n }

  lemma {:induction false} ShutStays(n: nat, s: System, t: System)
    requires ShutSince(n, s) && Next(s, t)
    ensures ShutSince(n, t)
  {
    var a :| CanAct(s, a) && t == Act(s, a);
    StepKeeps(s, a);
    NoStartPastTheGate(s, a);
  }

  /** Although the lifecycle and the thread are under different locks: from the traversal's stop
      request on, in every continuation of the run, the thread is never running without a stop
      request and no further activation starts. */
  lemma {:induction false} ShutdownGate(s: System, t: System)
    requires Reachable(s) && s.stopTraversed && Leads(Next, s, t)
    ensures GateShut(s) && GateShut(t) && t.activations == s.activations
  {
    ReachableHolds(s);
    forall u, v | ShutSince(s.activations, u) && Next(u, v) ensures ShutSince(s.activations, v) {
      ShutStays(s.activations, u, v);
    }
    InvariantHolds(Next, u => ShutSince(s.activations, u), s, t);
  }

  // ---------------------------------------------------------------- terminal completion

  /** Some bootstrap caller has looked at the lifecycle and is still to publish something that is not
      completion: a commit of the initialization, the outcome of a start, or the begin of a shutdown. */
  ghost predicate BootPending(s: System) { exists i :: 0 <= i < |s.boots| && Pending(s.boots[i]) }

  predicate Pending(stage: BootStage) {
    stage.SawInitialized? || (Publishes(stage).Some? && !Publishes(stage).value.ShutdownComplete?)
  }

  ghost predicate Final(s: System) { s.lifecycle.ShutdownComplete? && !BootPending(s) }

  lemma {:induction false} FinalStays(s: System, t: System)
    requires Final(s) && Next(s, t)
    ensures Final(t)
  {
    var a :| CanAct(s, a) && t == Act(s, a);
    if a.BootLook? || a.BootResources? || a.BootPublish? || a.BootTraverse? {
      FinalThroughBoot(s, a);
    } else {
      OnlyBootsPublish(s, a);
    }
  }

  lemma {:induction false} OnlyBootsPublish(s: System, a: Action)
    requires CanAct(s, a) && !a.BootLook? && !a.BootResources? && !a.BootPublish? && !a.BootTraverse?
    ensures Act(s, a).boots == s.boots && Act(s, a).lifecycle == s.lifecycle
  {
  }

  lemma {:induction false} FinalThroughBoot(s: System, a: Action)
    requires Final(s) && CanAct(s, a) && (a.BootLook? || a.BootResources? || a.BootPublish? || a.BootTraverse?)
    ensures Final(DoBoot(s, a))
  {
    var t := DoBoot(s, a);
    assert !Pending(s.boots[a.i]);
    forall i | 0 <= i < |t.boots| ensures !Pending(t.boots[i]) { assert i == a.i || t.boots[i] == s.boots[i]; }
  }

  /** Reading and publishing the lifecycle are separate critical sections, so ShutdownComplete is
      final exactly when no bootstrap caller stands between the two. */
  lemma {:induction false} CompletionIsFinalUnlessBootPending(s: System)
    requires Reachable(s) && s.lifecycle.ShutdownComplete?
    ensures !BootPending(s) <==> forall t :: Leads(Next, s, t) ==> t.lifecycle.ShutdownComplete?
  {
    if !BootPending(s) {
      forall u, v | Final(u) && Next(u, v) ensures Final(v) { FinalStays(u, v); }
      forall t | Leads(Next, s, t) ensures t.lifecycle.ShutdownComplete? { InvariantHolds(Next, Final, s, t); }
    } else {
      var i :| 0 <= i < |s.boots| && Pending(s.boots[i]);
      var t := Overwritten(s, i);
      assert !t.lifecycle.ShutdownComplete?;
    }
  }

  /** What bootstrap caller i still has to publish replaces whatever the lifecycle is by then. */
  lemma {:induction false} Overwritten(s: System, i: nat) returns (t: System)
    requires i < |s.boots| && Pending(s.boots[i])
    ensures Leads(Next, s, t) && !t.lifecycle.ShutdownComplete?
  {
    var u := s;
    LeadsNowhere(Next, s);
    if s.boots[i].SawInitialized? {
      u := Act(s, BootResources(i, false, false));
      LeadsOn(Next, s, s, u);
    }
    t := Act(u, BootPublish(i));
    LeadsOn(Next, s, u, t);
  }

  /** Three bootstrap callers, the first of which stands at the given stage. */
  ghost predicate Booting(s: System, lifecycle: InfrastructureState, first: BootStage) {
    && Reachable(s) && s.lifecycle == lifecycle && s.holder.None?
    && (lifecycle.Uninitialized? || lifecycle.Initialized? ==> !s.hosted)
    && |s.boots| == 3 && s.boots[0] == first && s.boots[1].Away? && s.boots[2].Away?
  }

  /** From s to t only the bootstrap callers have done something. */
  ghost predicate OnlyBoots(s: System, t: System) {
    t == s.(lifecycle := t.lifecycle, hosted := t.hosted, winner := t.winner, everStarted := t.everStarted,
            boots := t.boots)
  }

  lemma {:induction false} LookFirst(s: System) returns (u: System)
    requires Booting(s, s.lifecycle, Away)
    ensures Booting(u, s.lifecycle, Seen(s.lifecycle))
  {
    u := Act(s, BootLook(0));
    ReachableStep(s, BootLook(0));
  }

  /** Bootstrap caller i looks and publishes, with nothing in between. */
  lemma {:induction false} LookAndPublish(s: System, i: nat) returns (u: System)
    requires Reachable(s) && i < |s.boots| && s.boots[i].Away? && Publishes(Seen(s.lifecycle)).Some?
    ensures Reachable(u) && u.lifecycle == Publishes(Seen(s.lifecycle)).value
    ensures u == s.(lifecycle := u.lifecycle, boots := u.boots)
    ensures u.boots == s.boots[i := if CanActivate(s.lifecycle) then BegunShutdown else Away]
  {
    var s1 := Act(s, BootLook(i));
    ReachableStep(s, BootLook(i));
    u := Act(s1, BootPublish(i));
    ReachableStep(s1, BootPublish(i));
  }

  lemma {:induction false} Initialize(s: System, first: BootStage) returns (u: System)
    requires Booting(s, Uninitialized, first)
    ensures Booting(u, Initialized, first) && OnlyBoots(s, u)
  {
    u := LookAndPublish(s, 1);
  }

  lemma {:induction false} StartUp(s: System, first: BootStage) returns (u: System)
    requires Booting(s, Initialized, first)
    ensures Booting(u, InfrastructureState.Started, first) && u.hosted && OnlyBoots(s, u)
  {
    var s1 := Act(s, BootLook(1));
    ReachableStep(s, BootLook(1));
    var s2 := Act(s1, BootResources(1, true, true));
    ReachableStep(s1, BootResources(1, true, true));
    u := Act(s2, BootPublish(1));
    ReachableStep(s2, BootPublish(1));
  }

  lemma {:induction false} ShutDown(s: System, first: BootStage) returns (u: System)
    requires Booting(s, InfrastructureState.Started, first)
    ensures Booting(u, ShutdownComplete, first)
  {
    var s1 := LookAndPublish(s, 1);
    var s2 := Traverse(s1, 1);
    u := LookAndPublish(s2, 2);
  }

  lemma {:induction false} Traverse(s: System, i: nat) returns (u: System)
    requires Reachable(s) && i < |s.boots| && s.boots[i].BegunShutdown? && s.holder.None?
    ensures Reachable(u) && u.lifecycle == s.lifecycle && u.hosted == s.hosted && u.holder == s.holder
    ensures u.boots == s.boots[i := Away]
  {
    var sig := s.t.signals.(latched := s.t.signals.latched + {s.own});
    u := Act(s, BootTraverse(i, sig));
    ReachableStep(s, BootTraverse(i, sig));
  }

  /** With three callers the regression is real, and each kind of caller can cause it: one looks while
      the lifecycle is Uninitialized, Initialized or Started, the others complete the shutdown, and the
      first one has still to publish. */
  lemma {:induction false} CompletionCanRegress(at: InfrastructureState)
    requires at.Uninitialized? || at.Initialized? || at.Started?
    ensures exists s: System :: Booting(s, ShutdownComplete, Seen(at)) && BootPending(s)
  {
    var s := Init(1, 0, 0, 3);
    StartReachable(1, 0, 0, 3);
    var first := Away;
    if at.Uninitialized? { s := LookFirst(s); first := Seen(at); }
    s := Initialize(s, first);
    if at.Initialized? { s := LookFirst(s); first := Seen(at); }
    s := StartUp(s, first);
    if at.Started? { s := LookFirst(s); first := Seen(at); }
    s := ShutDown(s, first);
    assert Pending(s.boots[0]);
  }
}
