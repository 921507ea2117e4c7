/** What callers are told and what becomes of what they hand in, in terms of what has happened to the Task
    and of nothing else: its dispatch, its grant, requests, releases, and how its callable returned. */
module TaskAnswers {
  import opened Registrations
  import opened TaskModel
  import opened TaskLedger
  import opened TaskProtocol
  import opened TaskSteps
  import opened TaskRest
  import opened TaskInterrupts
  import opened TaskRuns
  import opened TaskGuarantees

  /** A reference to Task id shows what the history of the Task calls for. */
  lemma {:induction false} NamedExplained(s: System, id: nat, ref: Ref)
    requires Reachable(s) && Names(s.f.core, s.ids, id, ref)
    ensures Inv(s) && id < |s.ledger.tasks| && IsCurrent(s.f.core, ref)
    ensures s.ledger.tasks[id].body == s.f.core.records[ref.index].body && Explained(s.ledger.tasks[id])
  {
    ReachableHolds(s);
    NamedKnown(s, id, ref);
  }

  // ---------------------------------------------------------------- states

  lemma {:induction false} QueueIsHistory(s: System, id: nat)
    requires Reachable(s) && id < |s.ledger.tasks|
    ensures id in s.ledger.queue <==> QueuedAfter(s.ledger.tasks[id].past)
    ensures id in s.ledger.granted <==> s.ledger.tasks[id].past.grantedTo.Some?
  {
    ReachableHolds(s);
    assert Explained(s.ledger.tasks[id]) && Lifetimes(s.ledger.tasks[id]);
    GrantAnswerIsHistory(s.ledger, id);
    SurvivorsAre(s.ledger.tasks, |s.ledger.tasks|);
    assert id in s.ledger.granted + s.ledger.queue <==> id in s.ledger.granted || id in s.ledger.queue;
  }

  /** The public state of a Task, from its history: Queued while it is in the queue, Running from the grant
      to the publication, then Completed when its callable has produced a result and Cancelled when it has
      not, and Cancelled as well when it was dropped before a grant. */
  lemma {:induction false} StateIsHistory(s: System, id: nat, ref: Ref)
    requires Reachable(s) && Names(s.f.core, s.ids, id, ref)
    ensures id < |s.ledger.tasks|
    ensures var state, h := StateOf(s.f.core, ref), s.ledger.tasks[id].past;
      && (state == TaskQueued <==> id in s.ledger.queue)
      && (state == TaskRunning <==> id in s.ledger.granted && !h.published)
      && (state == TaskCompleted <==> h.published && h.produced.Some?)
      && (state == TaskCancelled <==>
            (id !in s.ledger.granted && (h.asked || h.released)) || (h.published && h.produced.None?))
    ensures Terminated(s.f.core, ref) <==>
      id !in s.ledger.queue && (id in s.ledger.granted ==> s.ledger.tasks[id].past.published)
  {
    NamedExplained(s, id, ref);
    QueueIsHistory(s, id);
  }

  /** The other answers about a Task, from its history. */
  lemma {:induction false} AnswersAreHistory(s: System, id: nat, ref: Ref)
    requires Reachable(s) && Names(s.f.core, s.ids, id, ref)
    ensures id < |s.ledger.tasks|
    ensures var h := s.ledger.tasks[id].past;
      && (Granted(s.f.core, ref) <==> h.grantedTo.Some?)
      && (CancellationRequested(s.f.core, ref) <==> h.grantedTo.Some? && !h.published && h.asked)
      && (CancelAccepted(s.f.core, ref) <==> id in s.ledger.queue || (id in s.ledger.granted && !h.published))
      && (OwnerlessTerminal(s.f.core, ref) <==>
            (h.released || h.taken) && id !in s.ledger.queue && (id in s.ledger.granted ==> h.published))
  {
    NamedExplained(s, id, ref);
    QueueIsHistory(s, id);
  }

  /** Taking the result: it succeeds exactly when the callable's result is published, and then hands out what
      the callable returned; a Task that ended without a result is Cancelled, any other not completed. */
  lemma {:induction false} TakingIsHistory(s: System, id: nat, ref: Ref)
    requires Reachable(s) && Names(s.f.core, s.ids, id, ref)
    ensures id < |s.ledger.tasks|
    ensures var status, h := TakeStatusOf(s.f.core, ref), s.ledger.tasks[id].past;
      && (status == TakeSucceeded <==> h.published && h.produced.Some?)
      && (status == TakeNotCompleted <==> id in s.ledger.queue || (id in s.ledger.granted && !h.published))
      && (status == TakeCancelled <==> StateOf(s.f.core, ref) == TaskCancelled)
    ensures var h := s.ledger.tasks[id].past;
      ResultOf(s.f.core, ref) == if h.published && !h.released && !h.taken then h.produced else None
  {
    NamedExplained(s, id, ref);
    StateIsHistory(s, id, ref);
    QueueIsHistory(s, id);
  }

  /** A live handle of a completed Task: what its own callable returned, and nothing else, is what taking the
      result hands out. */
  lemma {:induction false} OwnerTakesWhatWasReturned(s: System, id: nat)
    requires Reachable(s) && id in s.tokens
    ensures id < |s.ledger.tasks|
    ensures TakeStatusOf(s.f.core, s.tokens[id]) == TakeSucceeded ==>
      && s.ledger.tasks[id].past.produced.Some?
      && ResultOf(s.f.core, s.tokens[id]) == s.ledger.tasks[id].past.produced
  {
    ReachableHolds(s);
    TokenKnown(s, id);
    TakingIsHistory(s, id, s.tokens[id]);
    assert Explained(s.ledger.tasks[id]);
  }

  /** Whether a Worker is to be interrupted: it runs a Task that somebody has asked to stop and that is not
      published yet. */
  lemma {:induction false} InterruptionIsHistory(s: System, w: nat)
    requires Reachable(s)
    ensures CancellationRequestedFor(s.f.core, w) <==>
      exists id :: 0 <= id < |s.ledger.tasks| && AsksHistory(s.ledger.tasks[id].past, w)
  {
    ReachableHolds(s);
    if CancellationRequestedFor(s.f.core, w) {
      var i :| 0 <= i < |s.f.core.records| && AsksAt(s.f.core, i, w);
      assert RowOk(s.f.core, s.ids, s.home, s.ledger, i);
      assert Explained(s.ledger.tasks[s.ids[i]]);
    }
    if id :| 0 <= id < |s.ledger.tasks| && AsksHistory(s.ledger.tasks[id].past, w) {
      assert Explained(s.ledger.tasks[id]) && HomeOk(s.f.core, s.ids, s.home, s.ledger, id);
      assert RowOk(s.f.core, s.ids, s.home, s.ledger, s.home[id]);
      assert AsksAt(s.f.core, s.home[id], w);
    }
  }

  predicate AsksHistory(h: History, w: nat) { h.grantedTo == Some(w) && !h.published && h.asked }

  /** The facility is quiescent exactly when every Task ever admitted is over. */
  lemma {:induction false} QuiescenceIsHistory(s: System)
    requires Reachable(s)
    ensures !HasExecutionWork(s.f.core) <==>
      forall id :: 0 <= id < |s.ledger.tasks| ==> IsOver(s.ledger.tasks[id].past)
  {
    ReachableHolds(s);
    if !HasExecutionWork(s.f.core) {
      forall id | 0 <= id < |s.ledger.tasks| ensures IsOver(s.ledger.tasks[id].past) {
        assert Explained(s.ledger.tasks[id]) && HomeOk(s.f.core, s.ids, s.home, s.ledger, id);
        if Live(s.f.core, s.home[id]) { assert RowOk(s.f.core, s.ids, s.home, s.ledger, s.home[id]); }
      }
    }
    if i :| 0 <= i < |s.f.core.records| && !s.f.core.records[i].free && !IsTerminal(s.f.core.records[i].body) {
      assert RowOk(s.f.core, s.ids, s.home, s.ledger, i);
      assert Explained(s.ledger.tasks[s.ids[i]]) && !IsOver(s.ledger.tasks[s.ids[i]].past);
    }
  }

  /** Dropped before a grant, or published. */
  predicate IsOver(h: History) { DroppedAfter(h) || h.published }

  // ---------------------------------------------------------------- dispatch

  /** The caller has the handle of an allocated Task back, and nobody's place has changed. */
  ghost predicate HandleBack(s: System, t: System, id: nat) {
    id in t.tokens && id !in t.unreturned && HoldsRecord(t, id) && t.ops == s.ops
  }

  /** The Task is allocated, its handle not returned yet, and the caller goes to wait for a grant. */
  ghost predicate StillDispatching(s: System, t: System, id: nat, caller: Option<nat>) {
    && id in t.tokens && id in t.unreturned && HoldsRecord(t, id)
    && caller.Some? && caller.value < |s.ops| && t.ops == s.ops[caller.value := Entering(id, t.tokens[id])]
  }

  /** Nothing is left of the Task, and nobody's place has changed. */
  ghost predicate GivenUp(s: System, t: System, id: nat) { GoneAfter(t, id) && t.ops == s.ops }

  /** What has become of Task id, when its dispatch ended as it should. */
  ghost predicate Decided(s: System, t: System, id: nat, d: CallAction)
    requires d.Dispatch?
  {
    var granted := id in t.ledger.granted;
    && (HandleBack(s, t, id) <==> granted || (d.ok && d.policy == QueueForever))
    && (StillDispatching(s, t, id, d.caller) <==>
          !granted && d.ok && d.policy == QueueWithTimeout && d.caller.Some?)
    && (GivenUp(s, t, id) <==>
          !granted && (!d.ok || d.policy == AbandonImmediately || (d.policy == QueueWithTimeout && d.caller.None?)))
  }

  /** The admitting section of a dispatch, to the end: the handle comes back when a Worker was granted, and
      under QueueForever as well when no wake failed; only under QueueWithTimeout does a managed caller go
      on waiting; in every other case the Task is given up.  Whether it was granted is what the run shows. */
  lemma {:induction false} DispatchDecides(s: System, a: Action, t: System)
    requires Reachable(s) && Steps(s, a, t) && a.Call? && a.call.Dispatch?
    ensures Decided(s, t, |s.ledger.tasks|, a.call)
  {
    var end, granted := DispatchSettled(s, a);
    if end.Withdrawn? { DispatchGone(s, a); }
    DecidedBy(s, t, |s.ledger.tasks|, a.call, end, granted);
  }

  lemma {:induction false} DecidedBy(s: System, t: System, id: nat, d: CallAction, end: DispatchEnd, granted: bool)
    requires d.Dispatch? && (granted <==> id in t.ledger.granted)
    requires end == HandleReturned <==> granted || (d.ok && d.policy == QueueForever)
    requires end == MustWait <==> !granted && d.ok && d.policy == QueueWithTimeout && d.caller.Some?
    requires end.HandleReturned? ==> HandleBack(s, t, id)
    requires end.MustWait? ==> StillDispatching(s, t, id, d.caller)
    requires end.Withdrawn? ==> GivenUp(s, t, id)
    ensures Decided(s, t, id, d)
  {
    OneOfThree(s, t, id, d.caller);
  }

  lemma {:induction false} OneOfThree(s: System, t: System, id: nat, caller: Option<nat>)
    ensures !(HandleBack(s, t, id) && StillDispatching(s, t, id, caller))
    ensures !(HandleBack(s, t, id) && GivenUp(s, t, id)) && !(StillDispatching(s, t, id, caller) && GivenUp(s, t, id))
  {
  }

  lemma {:induction false} DispatchGone(s: System, a: Action)
    requires Inv(s) && CanAct(s, a) && a.Call? && a.call.Dispatch?
    requires FailedDispatch(s, a) == Some(|s.ledger.tasks|)
    ensures GoneAfter(Act(s, a), |s.ledger.tasks|)
  {
    WithdrawnDispatchDrops(s, a);
  }

  /** How the section ends, from the grant, the policy, the wakes and the caller: when the handle comes back,
      when the caller must wait, and what the caller of a withdrawn Task is told, which is Unavailable only
      under AbandonImmediately with no failed wake and Interrupted otherwise. */
  lemma {:induction false} EndsAre(g: Facility, r: Ref, policy: DispatchPolicy, ok: bool, caller: Option<nat>)
    ensures var end, granted := DispatchEnds(g, r, policy, ok, caller), Granted(g.core, r);
      && (end == HandleReturned <==> granted || (ok && policy == QueueForever))
      && (end == MustWait <==> !granted && ok && policy == QueueWithTimeout && caller.Some?)
      && (end == Withdrawn(Unavailable) <==> !granted && ok && policy == AbandonImmediately)
      && (end == Withdrawn(Interrupted) <==> !granted && (!ok || (policy == QueueWithTimeout && caller.None?)))
  {
  }

  lemma {:induction false} DispatchSettled(s: System, a: Action) returns (end: DispatchEnd, granted: bool)
    requires Inv(s) && CanAct(s, a) && a.Call? && a.call.Dispatch?
    ensures var id, d, t := |s.ledger.tasks|, a.call, Act(s, a);
      && (granted <==> id in t.ledger.granted)
      && (end == HandleReturned <==> granted || (d.ok && d.policy == QueueForever))
      && (end == MustWait <==> !granted && d.ok && d.policy == QueueWithTimeout && d.caller.Some?)
      && (end.HandleReturned? ==> HandleBack(s, t, id))
      && (end.MustWait? ==> StillDispatching(s, t, id, d.caller))
      && (end.Withdrawn? ==> id !in t.tokens && t.ops == s.ops && FailedDispatch(s, a) == Some(id))
  {
    var d, id := a.call, |s.ledger.tasks|;
    var g := Admitting(s, d.caller, d.work, d.n, d.sig);
    AdmittedSettles(s, d.caller, d.policy, d.work, d.n, d.ok, d.sig, g);
    end := DispatchEnds(g.f, AdmittedRef(s.f.core), d.policy, d.ok, d.caller);
    granted := Granted(g.f.core, AdmittedRef(s.f.core));
    EndsAre(g.f, AdmittedRef(s.f.core), d.policy, d.ok, d.caller);
    GrantedShows(g, id);
    Settled(g, id, end, d.caller);
  }

  lemma {:induction false} GrantedShows(g: System, id: nat)
    requires Inv(g) && id in g.tokens
    ensures Granted(g.f.core, g.tokens[id]) <==> id in g.ledger.granted
  {
    TokenKnown(g, id);
    GrantAnswerIsHistory(g.ledger, id);
  }

  /** What becomes of an admitted Task, by how its section ends. */
  lemma {:induction false} Settled(g: System, id: nat, end: DispatchEnd, caller: Option<nat>)
    requires CanSettle(g, id, end, caller)
    ensures var t := Settle(g, id, end, caller);
      && t.ledger.granted == g.ledger.granted
      && (end.HandleReturned? ==> HandleBack(g, t, id))
      && (end.MustWait? ==> StillDispatching(g, t, id, caller) && t.ops != g.ops)
      && (end.Withdrawn? ==> id !in t.tokens && t.ops == g.ops)
  {
    var t := Settle(g, id, end, caller);
    if end.Withdrawn? {
      TokenKnown(g, id);
      ReplayOne(g.ledger, OwnerReleased(id));
    } else {
      TokenKnown(t, id);
      WantedIsHeld(t, id);
    }
  }

  // ---------------------------------------------------------------- callables

  /** A dispatch opens the next Task with the very callable it was given. */
  lemma {:induction false} DispatchStoresItsCallable(s: System, a: Action, t: System)
    requires Reachable(s) && Steps(s, a, t) && a.Call? && a.call.Dispatch?
    ensures |t.ledger.tasks| == |s.ledger.tasks| + 1
    ensures t.ledger.tasks[|s.ledger.tasks|].past.work == a.call.work
  {
    var d := a.call;
    ReplayNumbers(s.ledger, Events(s, a));
    DispatchAdmitsOnce(s.f, |s.ledger.tasks|, d.caller, d.policy, d.work, d.n, d.ok, d.sig);
    assert WorksOf(t.ledger)[|s.ledger.tasks|] == a.call.work;
  }

  lemma {:induction false} GrantsAdmitNobody(f: Facility, current: Option<nat>, n: nat)
    requires CanSchedule(f, current, n)
    ensures Works(GrantEvents(f, current, n)) == []
    decreases n
  {
    if n > 0 {
      var w := NextWorker(f, current);
      GrantsAdmitNobody(GrantNext(f, w), current, n - 1);
      assert GrantEvents(f, current, n)[1..] == GrantEvents(GrantNext(f, w), current, n - 1);
    }
  }

  lemma {:induction false} DispatchAdmitsOnce(f: Facility, id: nat, caller: Option<nat>, policy: DispatchPolicy,
      work: nat, n: nat, ok: bool, sig: Signals)
    requires HasCapacity(f.core) && CanSchedule(AdmitPrefix(f, work, sig), caller, n)
    ensures Works(DispatchEvents(f, id, caller, policy, work, n, ok, sig)) == [work]
  {
    var f1 := AdmitPrefix(f, work, sig);
    var end := DispatchEnds(Schedule(f1, caller, n), AdmittedRef(f.core), policy, ok, caller);
    GrantsAdmitNobody(f1, caller, n);
    WorksAppend([Admitted(work)], GrantEvents(f1, caller, n));
    WorksAppend([Admitted(work)] + GrantEvents(f1, caller, n), SettleEvents(id, end));
    assert [Admitted(work)][1..] == [] && [OwnerReleased(id)][1..] == [];
    assert Works([Admitted(work)]) == [work] && Works(SettleEvents(id, end)) == [];
  }

  /** The callable in a record is the one its Task was dispatched with, until it has run or was dropped; and
      what a Worker is inside is exactly that. */
  lemma {:induction false} CallablesStayTheirOwn(s: System, id: nat, ref: Ref)
    requires Reachable(s) && Names(s.f.core, s.ids, id, ref)
    ensures id < |s.ledger.tasks|
    ensures s.f.core.records[ref.index].body.payload.Callable? ==>
      s.f.core.records[ref.index].body.payload == Callable(s.ledger.tasks[id].past.work)
    ensures forall w :: 0 <= w < |s.roles| && s.roles[w] == Invoking(id, ref) ==>
      s.f.core.records[ref.index].body.payload == Callable(s.ledger.tasks[id].past.work)
  {
    NamedExplained(s, id, ref);
    assert Lifetimes(s.ledger.tasks[id]);
    forall w | 0 <= w < |s.roles| && s.roles[w] == Invoking(id, ref)
      ensures s.f.core.records[ref.index].body.payload == Callable(s.ledger.tasks[id].past.work)
    {
      InvokingKnown(s, w);
    }
  }

  /** Over a whole run, Task number id is the id-th dispatch of the run and runs the callable of that
      dispatch. */
  lemma {:induction false} TasksAreTheDispatches(records: nat, workers: nat, first: nat, contexts: nat,
      states: seq<System>, acts: seq<Action>, s: System)
    requires first + workers <= contexts && RunFromTo(states, acts, Init(records, workers, first, contexts), s)
    ensures WorksOf(s.ledger) == Works(RunEvents(states, acts, |acts|))
  {
    RunsAreIdeal(records, workers, first, contexts, states, acts, s);
    ReplayNumbers(NO_TASKS, RunEvents(states, acts, |acts|));
    assert WorksOf(NO_TASKS) == [];
  }

  // ---------------------------------------------------------------- the ends of a callable

  /** When a Worker completes a Task the Task is published: Completed with the result the callable returned,
      or Cancelled when the callable returned none. */
  lemma {:induction false} CompletionPublishes(s: System, a: Action, t: System)
    requires Reachable(s) && Steps(s, a, t) && a.Work? && a.work.WorkerComplete?
    ensures var role := s.roles[a.work.w];
      && role.id < |s.ledger.tasks| && role.id < |t.ledger.tasks|
      && var before, after := s.ledger.tasks[role.id].past, t.ledger.tasks[role.id];
      && after.past.published && after.past.produced == before.produced
      && (role.outcome.Finished? ==> after.past.produced.Some? && after.body.state.Completed?)
      && (role.outcome.Abandoned? ==> after.past.produced.None? && after.body.state.Cancelled?)
  {
    ReachableHolds(s);
    var w := a.work.w;
    var id, outcome := s.roles[w].id, s.roles[w].outcome;
    ReturnedKnown(s, w);
    var grants := GrantEvents(CompletePrefix(s.f, w, s.roles[w].ref, outcome, a.work.sig), Some(w), a.work.n);
    assert Moved(s, t, [Published(id, outcome)] + grants);
    PublicationStands(s.ledger, id, outcome, grants);
  }

  lemma {:induction false} ReturnedKnown(s: System, w: nat)
    requires Inv(s) && w < |s.roles| && s.roles[w].Returned?
    ensures s.roles[w].id < |s.ledger.tasks|
    ensures s.ledger.tasks[s.roles[w].id].past.produced.Some? <==> s.roles[w].outcome.Finished?
  {
    InvokingKnown(s, w);
    assert WorkerOk(s.f.core, s.ids, s.f.workers, s.f.first, s.serving, s.roles, w);
    assert Explained(s.ledger.tasks[s.roles[w].id]);
  }

  /** What is published stays published, with the result that was there. */
  lemma {:induction false} PublicationStands(l: Ledger, id: nat, outcome: InvocationOutcome, es: seq<Event>)
    requires Good(l) && CanReplay(l, [Published(id, outcome)] + es)
    ensures var m := Replay(l, [Published(id, outcome)] + es);
      && id < |l.tasks| && id < |m.tasks| && m.tasks[id].past.published
      && m.tasks[id].past.produced == l.tasks[id].past.produced
      && (m.tasks[id].body.state.Completed? <==> l.tasks[id].past.produced.Some?)
      && (m.tasks[id].body.state.Cancelled? <==> l.tasks[id].past.produced.None?)
  {
    PublishedFirst(l, id, outcome, es);
    var m := Happen(l, Published(id, outcome));
    EventKeepsGood(l, Published(id, outcome));
    assert Explained(l.tasks[id]) && Explained(m.tasks[id]);
    ReplayRemembers(m, es, id);
    ReplayKeeps(m, es, id);
    assert Explained(Replay(m, es).tasks[id]);
  }

  lemma {:induction false} PublishedFirst(l: Ledger, id: nat, outcome: InvocationOutcome, es: seq<Event>)
    requires CanReplay(l, [Published(id, outcome)] + es)
    ensures CanHappen(l, Published(id, outcome)) && CanReplay(Happen(l, Published(id, outcome)), es)
    ensures Replay(l, [Published(id, outcome)] + es) == Replay(Happen(l, Published(id, outcome)), es)
  {
    assert ([Published(id, outcome)] + es)[1..] == es;
  }

  /** A Worker that completes a Task while others queue takes the oldest of them itself, with no wake in
      between. */
  lemma {:induction false} CompletingWorkerGoesOn(s: System, a: Action, t: System)
    requires Reachable(s) && Steps(s, a, t) && a.Work? && a.work.WorkerComplete? && s.ledger.queue != []
    ensures s.ledger.queue[0] < |t.ledger.tasks|
    ensures t.ledger.tasks[s.ledger.queue[0]].past.grantedTo == Some(a.work.w)
  {
    ReachableHolds(s);
    var w, sig, n := a.work.w, a.work.sig, a.work.n;
    var id, outcome := s.roles[w].id, s.roles[w].outcome;
    InvokingKnown(s, w);
    var f := CompletePrefix(s.f, w, s.roles[w].ref, outcome, sig);
    PrefixServes(s.f, w, s.roles[w].ref, outcome, sig);
    GrantsBegin(f, w, n, a.work.ok, sig);
    OldestFirst(s.ledger, t.ledger, id, outcome, w, GrantEvents(f, Some(w), n));
  }

  lemma {:induction false} PrefixServes(f: Facility, w: nat, r: Ref, outcome: InvocationOutcome, sig: Signals)
    requires IsWorker(f, w)
    ensures var g := CompletePrefix(f, w, r, outcome, sig); Available(g, w) && g.core.queue == f.core.queue
  {
  }

  /** A pass on behalf of an available Worker begins with a grant to that Worker, if anybody queues. */
  lemma {:induction false} GrantsBegin(f: Facility, w: nat, n: nat, ok: bool, sig: Signals)
    requires Available(f, w) && f.core.queue != [] && PassReached(f, Some(w), n, ok, sig)
    ensures GrantEvents(f, Some(w), n) != [] && GrantEvents(f, Some(w), n)[0] == GrantedTo(w)
  {
    assert f.workers[w - f.first] && AnyAvailable(f);
    NextWorkerIs(f, Some(w));
  }

  lemma {:induction false} OldestFirst(l: Ledger, m: Ledger, id: nat, outcome: InvocationOutcome, w: nat,
      es: seq<Event>)
    requires Good(l) && l.queue != [] && es != [] && es[0] == GrantedTo(w)
    requires CanReplay(l, [Published(id, outcome)] + es) && m == Replay(l, [Published(id, outcome)] + es)
    ensures l.queue[0] < |m.tasks| && m.tasks[l.queue[0]].past.grantedTo == Some(w)
  {
    PublishedFirst(l, id, outcome, es);
    var u := Happen(l, Published(id, outcome));
    EventKeepsGood(l, Published(id, outcome));
    EventKeepsGood(u, es[0]);
    assert l.queue[0] in l.queue;
    ReplayRemembers(Happen(u, es[0]), es[1..], l.queue[0]);
  }

  /** When a callable returns, its Task has produced what it returned, and the record holds it. */
  lemma {:induction false} ReturnProduces(s: System, a: Action, t: System)
    requires Reachable(s) && Steps(s, a, t) && a.Work? && a.work.CallableReturn?
    ensures var role := s.roles[a.work.w];
      && role.id < |t.ledger.tasks| && role.ref.index < |t.f.core.records|
      && var h := t.ledger.tasks[role.id].past;
      && h.returned == Some(a.work.outcome)
      && h.produced == (if a.work.outcome.Finished? then Some(a.work.value) else None)
      && t.f.core.records[role.ref.index].body.payload
         == (if a.work.outcome.Finished? then Result(a.work.value) else Empty)
  {
    ReachableHolds(s);
    var role := s.roles[a.work.w];
    InvokingKnown(s, a.work.w);
    ReplayOne(s.ledger, Invoked(role.id, a.work.outcome, a.work.value));
    assert Explained(t.ledger.tasks[role.id]) && Explained(s.ledger.tasks[role.id]);
    InvokingKnown(t, a.work.w);
  }

  // ---------------------------------------------------------------- Phases

  /** How many Tasks the slot of Task id had held when it was admitted, itself included. */
  function UseOf(home: seq<nat>, id: nat): nat
    requires id < |home|
  {
    Uses(home[..id + 1], home[id])
  }

  /** The Phase of a slot is the parity of the number of Tasks it has held. */
  lemma {:induction false} PhaseIsParity(s: System, i: nat)
    requires Reachable(s) && i < |s.f.core.records|
    ensures s.f.core.records[i].phase <==> Uses(s.home, i) % 2 == 1
  {
    ReachableHolds(s);
    assert RowOk(s.f.core, s.ids, s.home, s.ledger, i);
  }

  lemma {:induction false} UsesGrow(home: seq<nat>, n: nat, i: nat)
    requires n <= |home|
    ensures Uses(home[..n], i) <= Uses(home, i)
    decreases |home|
  {
    if n < |home| {
      UsesGrow(home[..|home| - 1], n, i);
      assert home[..|home| - 1][..n] == home[..n];
    } else {
      assert home[..n] == home;
    }
  }

  lemma {:induction false} SameParity(k: nat, n: nat)
    requires k <= n
    ensures (k % 2 == 1 <==> n % 2 == 1) <==> (n - k) % 2 == 0
  {
  }

  /** The reference that was handed out for Task id matches its slot exactly while an even number of Tasks
      has been admitted into the slot since: none, as long as anybody holds the reference. */
  lemma {:induction false} ReferencesMatchAfterEvenReuse(s: System, id: nat)
    requires Reachable(s) && id < |s.ledger.tasks|
    ensures id < |s.home| && s.home[id] < |s.f.core.records|
    ensures var i, k := s.home[id], UseOf(s.home, id);
      && k <= Uses(s.home, i)
      && (IsCurrent(s.f.core, Ref(i, k % 2 == 1)) <==> (Uses(s.home, i) - k) % 2 == 0)
  {
    ReachableHolds(s);
    assert HomeOk(s.f.core, s.ids, s.home, s.ledger, id);
    UsesGrow(s.home, id + 1, s.home[id]);
    PhaseIsParity(s, s.home[id]);
    SameParity(UseOf(s.home, id), Uses(s.home, s.home[id]));
  }
}
