/** Waiting for the end of shutdown.  The lifecycle has its own lock, the registrations another: a
    waiter registers and looks again under the registration mutex, the finalizer publishes under the
    lifecycle lock and only then wakes under the registration mutex.  A bootstrap caller whose look at the
    lifecycle is older can publish over the completion. */
module ShutdownWait {
  import opened Registrations
  import opened WaitRegistrations
  import opened Pigeonholes
  import opened Runs

  // ---------------------------------------------------------------- the runtime's sections

  datatype EntryResult = CompletedAtOnce | WaitRegistered(slot: nat) | NoWaitRoom

  /** How a context gets in; before and after are what the two looks at the lifecycle, in front of the
      registration and behind it, have seen. */
  function EntryOf(waiters: seq<Slot<()>>, before: bool, after: bool): EntryResult {
    if before then CompletedAtOnce else if FirstInactive(waiters) == |waiters| then NoWaitRoom
    else if after then CompletedAtOnce else WaitRegistered(FirstInactive(waiters))
  }

  function EntryLeaves(waiters: seq<Slot<()>>, before: bool, after: bool, context: nat): seq<Slot<()>> {
    if EntryOf(waiters, before, after).WaitRegistered? then Register(waiters, (), context) else waiters
  }

  class ShutdownWaitRuntime {
    const waiters: RegistrationSet<()>
    const router: ManagedContextRouter

    constructor (contexts: nat, router: ManagedContextRouter)
      ensures this.router == router && waiters.slots.Length == contexts && fresh(waiters.slots)
      ensures forall k :: 0 <= k < contexts ==> waiters.slots[k].Inactive?
    {
      waiters := new RegistrationSet<()>(contexts);
      this.router := router;
    }

    /** The section under the mutex. */
    method Enter(context: nat, before: bool, after: bool) returns (result: EntryResult)
      modifies waiters.slots
      ensures result == EntryOf(old(waiters.slots[..]), before, after)
      ensures waiters.slots[..] == EntryLeaves(old(waiters.slots[..]), before, after, context)
    {
      if before { return CompletedAtOnce; }
      ghost var was := waiters.slots[..];
      var index := waiters.Register((), context);
      if index.None? { return NoWaitRoom; }
      if after {
        waiters.Unregister(index.value);
        assert waiters.slots[..] == was;
        return CompletedAtOnce;
      }
      return WaitRegistered(index.value);
    }

    method Unregister(slot: nat)
      requires slot < waiters.slots.Length
      modifies waiters.slots
      ensures waiters.slots[..] == Registrations.Unregister(old(waiters.slots[..]), slot)
    {
      waiters.Unregister(slot);
    }

    /** Wakes every registered context; the answer is good only if every wake was. */
    method WakeCompleted() returns (succeeded: bool)
      modifies router
      ensures Notified(old(router.signals), router.signals)
      ensures Reached(router.signals, Waiting(waiters.slots[..], ()))
      ensures succeeded ==> Waiting(waiters.slots[..], ()) <= router.signals.latched
      ensures if succeeded then router.signals.failed == old(router.signals).failed else router.signals.failed != {}
    {
      succeeded := waiters.WakeMatching((), router);
    }
  }

  // ---------------------------------------------------------------- the protocol

  /** Where a context stands in WaitWithBudget.  Entered, RegisteredIn and LookedAgain are inside the
      mutex; again says that a blocked context has come back from its signal before; Leaving remembers what
      the last look has seen. */
  datatype Stage =
    | NotWaiting
    | BeforeMutex
    | Entered
    | RegisteredIn(slot: nat)
    | LookedAgain(slot: nat)
    | Blocked(slot: nat, parked: bool, again: bool)
    | Leaving(slot: nat, complete: bool)

  /** complete: the lifecycle is ShutdownComplete; published: it has been at some time; woken: since it
      last became so, WakeCompleted has finished; answered: contexts some wait of which returned Completed;
      asked: the contexts that are to be interrupted; clear: those that have looked for an interruption,
      found none and have taken no signal since. */
  datatype System = System(
    complete: bool,
    published: bool,
    woken: bool,
    holder: Option<nat>,
    waiters: seq<Slot<()>>,
    signals: Signals,
    stages: seq<Stage>,
    answered: set<nat>,
    asked: set<nat>,
    clear: set<nat>)

  predicate InMutex(stage: Stage) { stage.Entered? || stage.RegisteredIn? || stage.LookedAgain? }

  predicate HasSlot(stage: Stage) {
    stage.RegisteredIn? || stage.LookedAgain? || stage.Blocked? || stage.Leaving?
  }

  ghost predicate StageOk(s: System, c: nat) {
    c < |s.stages| ==>
      var stage := s.stages[c];
      && (InMutex(stage) <==> s.holder == Some(c))
      && (HasSlot(stage) ==> stage.slot < |s.waiters| && s.waiters[stage.slot] == Active((), c))
      && (stage.LookedAgain? ==> !s.woken)
      && (stage.Blocked? && stage.parked && s.woken ==> c in s.signals.latched + s.signals.failed)
      && (stage.Leaving? && stage.complete ==> s.published)
  }

  ghost predicate SlotOk(s: System, k: nat) {
    k < |s.waiters| && s.waiters[k].Active? ==>
      s.waiters[k].context < |s.stages| && HasSlot(s.stages[s.waiters[k].context])
      && s.stages[s.waiters[k].context].slot == k
  }

  ghost predicate AlertAt(s: System, c: nat) { Alerted(c in s.asked, s.signals, s.clear, c) }

  ghost predicate Inv(s: System) {
    && |s.waiters| == |s.stages|
    && (forall c: nat :: StageOk(s, c))
    && (forall k: nat :: SlotOk(s, k))
    && (forall c: nat :: AlertAt(s, c))
    && (s.woken ==> s.complete) && (s.complete ==> s.published)
    && (s.answered != {} ==> s.published)
    && (s.holder.Some? ==> s.holder.value < |s.stages|)
  }

  datatype Action =
    | Publish
    | Overwrite
    | WakeCompleted(sig: Signals)
    | FirstLook(c: nat)
    | AcquireMutex(c: nat)
    | LookInside(c: nat)
    | LookAgain(c: nat)
    | ReleaseMutex(c: nat)
    | Return(c: nat, consumed: bool)
    | Look(c: nat, leave: bool)
    | Leave(c: nat)
    | StrayWake(c: nat)
    | SpendSignal(c: nat)
    | Ask(c: nat, woken: bool)
    | Unask(c: nat)
    | LookAround(c: nat)

  /** Context c is on its signal: it has looked for an interruption since it last came back, if it ever
      came back; before it blocks for the first time it does not look. */
  ghost predicate OnSignal(s: System, c: nat) {
    && c < |s.stages| && s.stages[c].Blocked? && s.stages[c].parked
    && (s.stages[c].again ==> c in s.clear)
  }

  ghost predicate CanAct(s: System, a: Action) {
    match a
    case Publish => true
    case Overwrite => s.complete
    case WakeCompleted(sig) =>
      s.published && s.holder.None? && Notified(s.signals, sig) && Reached(sig, Waiting(s.waiters, ()))
    case FirstLook(c) => c < |s.stages| && s.stages[c].NotWaiting?
    case AcquireMutex(c) => c < |s.stages| && s.stages[c].BeforeMutex? && s.holder.None?
    case LookInside(c) => c < |s.stages| && s.stages[c].Entered?
    case LookAgain(c) => c < |s.stages| && s.stages[c].RegisteredIn?
    case ReleaseMutex(c) => c < |s.stages| && s.stages[c].LookedAgain?
    case Return(c, consumed) => OnSignal(s, c) && (consumed ==> c in s.signals.latched)
    case Look(c, leave) => c < |s.stages| && s.stages[c].Blocked?
    case Leave(c) => c < |s.stages| && s.stages[c].Leaving? && s.holder.None?
    case StrayWake(_) => true
    case SpendSignal(c) => c < |s.stages| && s.stages[c].NotWaiting?
    case Ask(_, _) => true
    case Unask(_) => true
    case LookAround(c) => true
  }

  predicate IsEntry(a: Action) {
    a.FirstLook? || a.AcquireMutex? || a.LookInside? || a.LookAgain? || a.ReleaseMutex?
  }

  predicate IsWait(a: Action) { a.Return? || a.Look? || a.Leave? }

  function Set(s: System, c: nat, stage: Stage): System
    requires c < |s.stages|
  {
    s.(stages := s.stages[c := stage])
  }

  ghost function DoEntry(s: System, a: Action): System
    requires CanAct(s, a) && IsEntry(a)
  {
    match a
    case FirstLook(c) =>
      if s.complete then s.(answered := s.answered + {c}) else Set(s, c, BeforeMutex)
    case AcquireMutex(c) => Set(s, c, Entered).(holder := Some(c))
    case LookInside(c) =>
      if s.complete then Set(s, c, NotWaiting).(holder := None, answered := s.answered + {c})
      else if FirstInactive(s.waiters) == |s.waiters| then Set(s, c, NotWaiting).(holder := None)
      else Set(s, c, RegisteredIn(FirstInactive(s.waiters))).(waiters := Register(s.waiters, (), c))
    case LookAgain(c) =>
      if s.complete
      then Set(s, c, NotWaiting).(holder := None, answered := s.answered + {c},
                                  waiters := Unregister(s.waiters, s.stages[c].slot))
      else Set(s, c, LookedAgain(s.stages[c].slot))
    case ReleaseMutex(c) => Set(s, c, Blocked(s.stages[c].slot, true, false)).(holder := None)
  }

  ghost function DoWait(s: System, a: Action): System
    requires CanAct(s, a) && IsWait(a)
  {
    match a
    case Return(c, consumed) =>
      Set(s, c, Blocked(s.stages[c].slot, false, true)).(clear := s.clear - {c}, signals := if consumed
        then s.signals.(latched := s.signals.latched - {c}) else s.signals)
    case Look(c, leave) =>
      Set(s, c, if s.complete || leave then Leaving(s.stages[c].slot, s.complete)
                else s.stages[c].(parked := true))
    case Leave(c) =>
      Set(s, c, NotWaiting).(waiters := Unregister(s.waiters, s.stages[c].slot),
                             answered := if s.stages[c].complete then s.answered + {c} else s.answered)
  }

  ghost function Act(s: System, a: Action): System
    requires CanAct(s, a)
  {
    match a
    case Publish => s.(complete := true, published := true)
    case Overwrite => s.(complete := false, woken := false)
    case WakeCompleted(sig) => s.(signals := sig, woken := s.complete)
    case StrayWake(c) => s.(signals := s.signals.(latched := s.signals.latched + {c}))
    case SpendSignal(c) => s.(signals := s.signals.(latched := s.signals.latched - {c}), clear := s.clear - {c})
    case Ask(c, woken) =>
      s.(asked := s.asked + {c}, signals := if woken then s.signals.(latched := s.signals.latched + {c})
                                            else s.signals.(failed := s.signals.failed + {c}))
    case Unask(c) => s.(asked := s.asked - {c})
    case LookAround(c) => s.(clear := if c in s.asked then s.clear - {c} else s.clear + {c})
    case FirstLook(_) => DoEntry(s, a)
    case AcquireMutex(_) => DoEntry(s, a)
    case LookInside(_) => DoEntry(s, a)
    case LookAgain(_) => DoEntry(s, a)
    case ReleaseMutex(_) => DoEntry(s, a)
    case Return(_, _) => DoWait(s, a)
    case Look(_, _) => DoWait(s, a)
    case Leave(_) => DoWait(s, a)
  }

  lemma {:induction false} EntryKeeps(s: System, a: Action)
    requires Inv(s) && CanAct(s, a) && IsEntry(a)
    ensures Inv(DoEntry(s, a))
  {
    var t := DoEntry(s, a);
    assert StageOk(s, a.c);
    forall c: nat ensures StageOk(t, c) { assert StageOk(s, c); }
    forall k: nat ensures SlotOk(t, k) { assert SlotOk(s, k); }
    forall c: nat ensures AlertAt(t, c) { assert AlertAt(s, c); }
  }

  lemma {:induction false} WaitKeeps(s: System, a: Action)
    requires Inv(s) && CanAct(s, a) && IsWait(a)
    ensures Inv(DoWait(s, a))
  {
    var t := DoWait(s, a);
    assert StageOk(s, a.c);
    forall c: nat ensures StageOk(t, c) { assert StageOk(s, c); }
    forall k: nat ensures SlotOk(t, k) { assert SlotOk(s, k); }
    forall c: nat ensures AlertAt(t, c) { assert AlertAt(s, c); }
  }

  /** What comes from outside the waits. */
  lemma {:induction false} OutsideKeeps(s: System, a: Action)
    requires Inv(s) && CanAct(s, a) && !IsEntry(a) && !IsWait(a)
    ensures Inv(Act(s, a))
  {
    var t := Act(s, a);
    forall c: nat ensures StageOk(t, c) {
      assert StageOk(s, c);
      if a.WakeCompleted? && c < |s.stages| && HasSlot(s.stages[c]) {
        assert Matches(s.waiters, s.stages[c].slot, ());
      }
    }
    forall k: nat ensures SlotOk(t, k) { assert SlotOk(s, k); }
    forall c: nat ensures AlertAt(t, c) { assert AlertAt(s, c); }
  }

  lemma {:induction false} StepKeeps(s: System, a: Action)
    requires Inv(s) && CanAct(s, a)
    ensures Inv(Act(s, a))
  {
    if IsEntry(a) { EntryKeeps(s, a); } else if IsWait(a) { WaitKeeps(s, a); } else { OutsideKeeps(s, a); }
  }

  /** A context outside a wait, or at its entrance, always finds a free registration slot. */
  lemma {:induction false} WaitRoom(s: System, c: nat)
    requires Inv(s) && c < |s.stages| && !HasSlot(s.stages[c])
    ensures FirstInactive(s.waiters) < |s.waiters|
  {
    if FirstInactive(s.waiters) == |s.waiters| {
      var n := |s.stages|;
      forall k | 0 <= k < n
        ensures s.waiters[k].Active? && s.waiters[k].context < n
        ensures HasSlot(s.stages[s.waiters[k].context]) && s.stages[s.waiters[k].context].slot == k
      {
        assert SlotOk(s, k);
      }
      var a := seq(n, k requires 0 <= k < n => s.waiters[k].context);
      Pigeonhole(a, n, c);
    }
  }

  // ---------------------------------------------------------------- runs

  function Init(contexts: nat): System {
    System(false, false, false, None, seq(contexts, i => Inactive), Signals({}, {}), seq(contexts, i => NotWaiting),
           {}, {}, {})
  }

  ghost predicate Next(s: System, t: System) { exists a :: CanAct(s, a) && t == Act(s, a) }

  ghost predicate Reachable(s: System) { exists contexts :: Leads(Next, Init(contexts), s) }

  lemma {:induction false} NextKeeps(s: System, t: System)
    requires Inv(s) && Next(s, t)
    ensures Inv(t)
  {
    var a :| CanAct(s, a) && t == Act(s, a);
    StepKeeps(s, a);
  }

  lemma {:induction false} ReachableHolds(s: System)
    requires Reachable(s)
    ensures Inv(s)
  {
    var contexts :| Leads(Next, Init(contexts), s);
    forall a, b | Inv(a) && Next(a, b) ensures Inv(b) { NextKeeps(a, b); }
    InvariantHolds(Next, Inv, Init(contexts), s);
  }

  /** Once completion is published and WakeCompleted has finished, and as long as the lifecycle is not
      overwritten, a context that is blocked, or about to block, has its signal latched; the only excuse is
      that the wake of that very context failed. */
  lemma {:induction false} NoLostCompletion(s: System, c: nat)
    requires Reachable(s) && s.woken && c < |s.stages| && s.stages[c].Blocked? && s.stages[c].parked
    ensures c in s.signals.latched + s.signals.failed
  {
    ReachableHolds(s);
    assert StageOk(s, c);
  }

  /** Completed is returned, or about to be returned, only after ShutdownComplete was published. */
  lemma {:induction false} CompletedMeansPublished(s: System, c: nat)
    requires Reachable(s)
    requires c in s.answered || (c < |s.stages| && s.stages[c].Leaving? && s.stages[c].complete)
    ensures s.published
  {
    ReachableHolds(s);
    assert StageOk(s, c);
  }

  /** The context is blocked, about to block, or past its last look before it blocks. */
  predicate Committed(stage: Stage) { stage.LookedAgain? || (stage.Blocked? && stage.parked) }

  /** A step that leaves the completion standing. */
  ghost predicate Steady(s: System, t: System) { exists a :: CanAct(s, a) && !a.Overwrite? && t == Act(s, a) }

  /** From s, where completion was published, to t: it still is, whoever is going to block was already
      going to in s, with the same registration, and whoever leaves without having seen the completion
      was already leaving in s. */
  ghost predicate OnlyLeft(s: System, t: System) {
    && t.complete && |t.stages| == |s.stages|
    && (forall c :: 0 <= c < |s.stages| && Committed(t.stages[c]) ==>
          Committed(s.stages[c]) && s.stages[c].slot == t.stages[c].slot)
    && (forall c :: 0 <= c < |s.stages| && t.stages[c].Leaving? && !t.stages[c].complete ==>
          t.stages[c] == s.stages[c])
  }

  lemma {:induction false} OnlyLeftStays(s: System, t: System, u: System)
    requires OnlyLeft(s, t) && Steady(t, u)
    ensures OnlyLeft(s, u)
  {
    var a :| CanAct(t, a) && !a.Overwrite? && u == Act(t, a);
    NobodyCommits(t, a);
    forall c | 0 <= c < |s.stages| && Committed(u.stages[c])
      ensures Committed(s.stages[c]) && s.stages[c].slot == u.stages[c].slot
    {
      assert Committed(t.stages[c]) && t.stages[c].slot == u.stages[c].slot;
    }
  }

  lemma {:induction false} NobodyCommits(t: System, a: Action)
    requires t.complete && CanAct(t, a) && !a.Overwrite?
    ensures OnlyLeft(t, Act(t, a))
  {
    var u := Act(t, a);
    if IsEntry(a) || IsWait(a) { assert u.stages == t.stages[a.c := u.stages[a.c]]; }
    else { assert u.stages == t.stages; }
  }

  /** After publication nobody blocks anew, in any continuation of the run and for any number of
      contexts, as long as the completion stands: every wait that is not blocked yet, and every blocked
      one once it has come back, ends, and with Completed unless it had made up its mind before. */
  lemma {:induction false} NobodyBlocksAfterPublication(s: System, t: System)
    requires s.complete && Leads(Steady, s, t)
    ensures OnlyLeft(s, t)
  {
    forall a, b | OnlyLeft(s, a) && Steady(a, b) ensures OnlyLeft(s, b) { OnlyLeftStays(s, a, b); }
    InvariantHolds(Steady, u => OnlyLeft(s, u), s, t);
  }

  lemma {:induction false} ReachableStep(s: System, a: Action)
    requires Reachable(s) && CanAct(s, a)
    ensures Reachable(Act(s, a))
  {
    var contexts :| Leads(Next, Init(contexts), s);
    LeadsOn(Next, Init(contexts), s, Act(s, a));
  }

  /** What the section's method ensures is a run of the protocol: the context takes the mutex, looks,
      registers, looks again and lets the mutex go; published says that completion comes in between. */
  lemma {:induction false} EntryIsARun(s: System, c: nat, published: bool) returns (t: System)
    requires Inv(s) && c < |s.stages| && s.stages[c].BeforeMutex? && s.holder.None?
    ensures Leads(Next, s, t) && t.holder.None? && |t.stages| == |s.stages|
    ensures var before, after := s.complete, s.complete || published;
      && t.waiters == EntryLeaves(s.waiters, before, after, c)
      && match EntryOf(s.waiters, before, after)
         case CompletedAtOnce => t.stages[c].NotWaiting? && c in t.answered
         case WaitRegistered(slot) => t.stages[c] == Blocked(slot, true, false)
         case NoWaitRoom => false
  {
    WaitRoom(s, c);
    LeadsNowhere(Next, s);
    var s1 := Act(s, AcquireMutex(c));
    LeadsOn(Next, s, s, s1);
    var s2 := Act(s1, LookInside(c));
    LeadsOn(Next, s, s1, s2);
    if s.complete { return s2; }
    var s3 := s2;
    if published {
      s3 := Act(s2, Publish);
      LeadsOn(Next, s, s2, s3);
    }
    t := Act(s3, LookAgain(c));
    LeadsOn(Next, s, s3, t);
    if published {
      assert t.waiters == s.waiters;
    } else {
      LeadsOn(Next, s, t, Act(t, ReleaseMutex(c)));
      t := Act(t, ReleaseMutex(c));
    }
  }

  /** The one context is outside every wait and no signal is latched or failed. */
  ghost predicate Fresh(s: System) {
    && Reachable(s) && s.holder.None? && s.signals == Signals({}, {})
    && s.stages == [NotWaiting] && s.waiters == [Inactive]
  }

  lemma {:induction false} Overwritten() returns (s: System)
    ensures Fresh(s) && s.published && !s.complete
  {
    s := Init(1);
    LeadsNowhere(Next, s);
    ReachableStep(s, Publish);
    s := Act(s, Publish);
    ReachableStep(s, WakeCompleted(s.signals));
    s := Act(s, WakeCompleted(s.signals));
    ReachableStep(s, Overwrite);
    s := Act(s, Overwrite);
  }

  lemma {:induction false} GoesToBlock(s: System) returns (t: System)
    requires Fresh(s) && !s.complete
    ensures Reachable(t) && t.published == s.published && t.signals == s.signals
    ensures t.asked == s.asked && t.clear == s.clear && t.stages == [Blocked(0, true, false)]
  {
    ReachableStep(s, FirstLook(0));
    var s1 := Act(s, FirstLook(0));
    ReachableStep(s1, AcquireMutex(0));
    var s2 := Act(s1, AcquireMutex(0));
    ReachableStep(s2, LookInside(0));
    var s3 := Act(s2, LookInside(0));
    ReachableStep(s3, LookAgain(0));
    var s4 := Act(s3, LookAgain(0));
    ReachableStep(s4, ReleaseMutex(0));
    t := Act(s4, ReleaseMutex(0));
  }

  /** Context c blocks although completion was published, and nothing is going to wake it. */
  ghost predicate Stranded(s: System, c: nat) {
    && Reachable(s) && s.published && c < |s.stages| && s.stages[c].Blocked? && s.stages[c].parked
    && c !in s.signals.latched + s.signals.failed
  }

  /** The proviso is needed: when the completion is overwritten after it was published and everybody
      was woken, a later wait blocks with no signal on its way. */
  lemma {:induction false} OverwritingLosesCompletion()
    ensures exists s: System :: Stranded(s, 0)
  {
    var s := Overwritten();
    var t := GoesToBlock(s);
    assert Stranded(t, 0);
  }

  // ---------------------------------------------------------------- interruption

  /** A context on its signal that is to be interrupted has its signal latched, unless a wake of it failed,
      once it has looked: always after it has come back for the first time. */
  lemma {:induction false} NoLostInterruption(s: System, c: nat)
    requires Reachable(s) && OnSignal(s, c) && c in s.asked && (c in s.clear || s.stages[c].again)
    ensures c in s.signals.latched + s.signals.failed
  {
    ReachableHolds(s);
    assert AlertAt(s, c);
  }

  /** Context c is on its signal although it is to be interrupted, and nothing is going to wake it. */
  ghost predicate Deaf(s: System, c: nat) {
    Reachable(s) && OnSignal(s, c) && c in s.asked && c !in s.signals.latched + s.signals.failed
  }

  lemma {:induction false} DeafOnlyBeforeTheFirstLook(s: System, c: nat)
    requires Deaf(s, c)
    ensures !s.stages[c].again && c !in s.clear
  {
    if s.stages[c].again || c in s.clear { NoLostInterruption(s, c); }
  }

  /** It does happen: the context takes the signal of the request elsewhere and then waits for the end of
      the shutdown, which blocks without a look. */
  lemma {:induction false} DeafWaitHappens()
    ensures exists s: System :: Deaf(s, 0)
  {
    var s := Init(1);
    LeadsNowhere(Next, s);
    ReachableStep(s, Ask(0, true));
    s := Act(s, Ask(0, true));
    ReachableStep(s, SpendSignal(0));
    s := Act(s, SpendSignal(0));
    var t := GoesToBlock(s);
    assert Deaf(t, 0);
  }

  /** Registering for the end of shutdown never fails. */
  lemma {:induction false} RegistrationNeverFails(s: System, c: nat)
    requires Reachable(s) && c < |s.stages| && !HasSlot(s.stages[c])
    ensures FirstInactive(s.waiters) < |s.waiters|
  {
    ReachableHolds(s);
    WaitRoom(s, c);
  }
}
