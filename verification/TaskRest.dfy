/** What additionally holds whenever the facility mutex is free: a record is allocated exactly when
    somebody still wants it, and no Worker idles beside a queued Task unless a wake has failed. */
module TaskRest {
  import opened Registrations
  import opened TaskModel
  import opened TaskLedger
  import opened TaskProtocol
  import opened TaskSteps

  /** Slot i, when allocated, is still running or queued, owned, or waited for. */
  ghost predicate TidyAt(f: Facility, i: nat) {
    Live(f.core, i) ==>
      !IsTerminal(f.core.records[i].body) || f.core.records[i].body.owner || Waited(f.waiters, RefOf(f.core, i))
  }

  ghost predicate Tidy(f: Facility) { forall i: nat :: TidyAt(f, i) }

  ghost predicate TidyBut(f: Facility, j: nat) { forall i: nat :: i != j ==> TidyAt(f, i) }

  ghost predicate Conserving(f: Facility) { Saturated(f) || f.signals.failed != {} }

  ghost predicate Rest(s: System) { Tidy(s.f) && Conserving(s.f) }

  // ---------------------------------------------------------------- tidiness

  lemma {:induction false} ReclaimTidies(f: Facility, r: Ref)
    requires TidyBut(f, r.index) && (Live(f.core, r.index) ==> IsCurrent(f.core, r))
    ensures Tidy(ReclaimIfQuiescent(f, r))
  {
    var g := ReclaimIfQuiescent(f, r);
    forall i: nat ensures TidyAt(g, i) { if i != r.index { assert TidyAt(f, i); } }
  }

  lemma {:induction false} WriteTidy(f: Facility, g: Facility, j: nat)
    requires Tidy(f) && g.waiters == f.waiters && j < |f.core.records|
    requires |g.core.records| == |f.core.records|
    requires forall i :: 0 <= i < |f.core.records| && i != j ==> g.core.records[i] == f.core.records[i]
    ensures TidyBut(g, j)
  {
    forall i: nat | i != j ensures TidyAt(g, i) { assert TidyAt(f, i); }
  }

  lemma {:induction false} UnregisterTidy(f: Facility, g: Facility, k: nat, r: Ref)
    requires Tidy(f) && g.core == f.core && g.waiters == Unregister(f.waiters, k)
    requires k < |f.waiters| && f.waiters[k].Active? && f.waiters[k].target == r
    ensures TidyBut(g, r.index)
  {
    forall i: nat | i != r.index ensures TidyAt(g, i) {
      assert TidyAt(f, i);
      if Live(f.core, i) && Waited(f.waiters, RefOf(f.core, i)) {
        var j :| 0 <= j < |f.waiters| && Matches(f.waiters, j, RefOf(f.core, i));
        assert Matches(g.waiters, j, RefOf(g.core, i));
      }
    }
  }

  lemma {:induction false} RegisterTidy(f: Facility, g: Facility, r: Ref, c: nat)
    requires Tidy(f) && g.core == f.core && g.waiters == Register(f.waiters, r, c)
    ensures Tidy(g)
  {
    forall i: nat ensures TidyAt(g, i) {
      assert TidyAt(f, i);
      if Live(f.core, i) && Waited(f.waiters, RefOf(f.core, i)) {
        var j :| 0 <= j < |f.waiters| && Matches(f.waiters, j, RefOf(f.core, i));
        assert Matches(g.waiters, j, RefOf(g.core, i));
      }
    }
  }

  lemma {:induction false} ScheduleTidy(f: Facility, current: Option<nat>, n: nat)
    requires Tidy(f) && CanSchedule(f, current, n)
    ensures Tidy(Schedule(f, current, n))
    decreases n
  {
    if n > 0 {
      var g := GrantNext(f, NextWorker(f, current));
      forall i: nat ensures TidyAt(g, i) { assert TidyAt(f, i); }
      ScheduleTidy(g, current, n - 1);
    }
  }

  lemma {:induction false} AdmitTidy(f: Facility, work: nat, sig: Signals)
    requires Tidy(f) && HasCapacity(f.core)
    ensures Tidy(AdmitPrefix(f, work, sig))
  {
    var g := AdmitPrefix(f, work, sig);
    forall i: nat ensures TidyAt(g, i) { assert TidyAt(f, i); }
  }

  /** Shutdown needs no reclamation: what it takes out of the queue is still owned. */
  lemma {:induction false} CancelFromTidy(f: Facility, k: nat)
    requires Tidy(f) && k <= |f.core.records|
    requires forall i :: 0 <= i < |f.core.records| && Live(f.core, i) && f.core.records[i].body.state.Queued? ==>
      f.core.records[i].body.owner
    ensures Tidy(f.(core := CancelFrom(f.core, k)))
    decreases |f.core.records| - k
  {
    if k < |f.core.records| {
      if f.core.records[k].free {
        CancelFromTidy(f, k + 1);
      } else {
        var g := f.(core := Cancel(f.core, RefOf(f.core, k)));
        forall i: nat ensures TidyAt(g, i) { assert TidyAt(f, i); }
        CancelFromTidy(g, k + 1);
      }
    }
  }

  lemma {:induction false} CancelFromQueue(c: Core, k: nat)
    requires k <= |c.records| && c.queue == []
    ensures CancelFrom(c, k).queue == []
    decreases |c.records| - k
  {
    if k < |c.records| {
      CancelFromQueue(if c.records[k].free then c else Cancel(c, RefOf(c, k)), k + 1);
    }
  }

  // ---------------------------------------------------------------- every section ends at rest

  lemma {:induction false} CancelRests(s: System, id: nat, sig: Signals)
    requires Inv(s) && Rest(s) && CanCancel(s, id, sig)
    ensures Rest(DoCancel(s, id, sig))
  {
    TokenKnown(s, id);
    var r := s.tokens[id];
    var g := s.f.(core := Cancel(s.f.core, r), signals := sig);
    WriteTidy(s.f, g, r.index);
    ReclaimTidies(g, r);
  }

  lemma {:induction false} ReleaseRests(s: System, id: nat, sig: Signals)
    requires Inv(s) && Rest(s) && CanRelease(s, id, sig)
    ensures Rest(DoRelease(s, id, sig))
  {
    TokenKnown(s, id);
    var r := s.tokens[id];
    var g := s.f.(core := Release(s.f.core, r), signals := sig);
    WriteTidy(s.f, g, r.index);
    ReclaimTidies(g, r);
  }

  lemma {:induction false} TakeRests(s: System, id: nat, sig: Signals)
    requires Inv(s) && Rest(s) && CanTake(s, id, sig)
    ensures Rest(DoTake(s, id, sig))
  {
    TokenKnown(s, id);
    var r := s.tokens[id];
    var g := s.f.(core := Take(s.f.core, r), signals := sig);
    WriteTidy(s.f, g, r.index);
    ReclaimTidies(g, r);
  }

  lemma {:induction false} WithdrawRest(f: Facility, r: Ref)
    requires Tidy(f) && Conserving(f) && r.index < |f.core.records| && IsCurrent(f.core, r)
    ensures Tidy(Withdraw(f, r)) && Conserving(Withdraw(f, r))
  {
    var g := f.(core := Release(f.core, r));
    WriteTidy(f, g, r.index);
    ReclaimTidies(g, r);
  }

  lemma {:induction false} DispatchRest(s: System, caller: Option<nat>, policy: DispatchPolicy, work: nat, n: nat,
      ok: bool, sig: Signals)
    requires Inv(s) && Rest(s) && CanDispatch(s, caller, policy, work, n, ok, sig)
    ensures Rest(DoDispatch(s, caller, policy, work, n, ok, sig))
  {
    var f1, r := AdmitPrefix(s.f, work, sig), AdmittedRef(s.f.core);
    AdmitTidy(s.f, work, sig);
    ScheduleTidy(f1, caller, n);
    var g := Admitting(s, caller, work, n, sig);
    TokenKnown(g, |s.ledger.tasks|);
    WithdrawRest(g.f, r);
  }

  lemma {:induction false} WaitsRest(s: System, c: nat, leave: bool, sig: Signals)
    requires Inv(s) && Rest(s) && c < |s.ops|
    ensures CanRecheckTask(s, c, leave, sig) ==> Rest(DoRecheckTask(s, c, leave, sig))
    ensures CanRecheckGrant(s, c, leave, sig) ==> Rest(DoRecheckGrant(s, c, leave, sig))
  {
    if s.ops[c].Waiter? {
      var op := s.ops[c];
      assert OpOk(s.f.core, s.ids, s.f.waiters, s.tokens, s.unreturned, s.ops, c);
      var g := s.f.(waiters := Unregister(s.f.waiters, op.slot), signals := sig);
      UnregisterTidy(s.f, g, op.slot, op.ref);
      ReclaimTidies(g, op.ref);
      if CanRecheckGrant(s, c, leave, sig) && !Granted(s.f.core, op.ref) && leave {
        var h := g.(core := Release(g.core, op.ref));
        forall i: nat | i != op.ref.index ensures TidyAt(h, i) { assert TidyAt(g, i); }
        ReclaimTidies(h, op.ref);
      }
    }
  }

  lemma {:induction false} EntriesRest(s: System, c: nat, id: nat)
    requires Inv(s) && Rest(s) && c < |s.ops|
    ensures CanEnterTaskWait(s, c, id) ==> Rest(DoEnterTaskWait(s, c, id))
    ensures s.ops[c].Entering? ==> Rest(DoEnterGrantWait(s, c))
  {
    if CanEnterTaskWait(s, c, id) && !Terminated(s.f.core, s.tokens[id]) {
      RegisterTidy(s.f, DoEnterTaskWait(s, c, id).f, s.tokens[id], c);
    }
    if s.ops[c].Entering? && !Granted(s.f.core, s.ops[c].ref) {
      WaiterRoom(s, c);
      RegisterTidy(s.f, DoEnterGrantWait(s, c).f, s.ops[c].ref, c);
    }
  }

  lemma {:induction false} CapacityRest(s: System, c: nat, leave: bool)
    requires Inv(s) && Rest(s) && c < |s.ops|
    ensures MayCall(s, c) ==> Rest(DoEnterCapacityWait(s, c))
    ensures CanRecheckCapacity(s, c, leave) ==> Rest(DoRecheckCapacity(s, c, leave))
  {
    if MayCall(s, c) { SameTidy(s.f, DoEnterCapacityWait(s, c).f); }
    if CanRecheckCapacity(s, c, leave) { SameTidy(s.f, DoRecheckCapacity(s, c, leave).f); }
  }

  lemma {:induction false} SameTidy(f: Facility, g: Facility)
    requires Tidy(f) && g.core == f.core && g.waiters == f.waiters
    ensures Tidy(g)
  {
    forall i: nat ensures TidyAt(g, i) { assert TidyAt(f, i); }
  }

  lemma {:induction false} WorkersRest(s: System, w: nat, n: nat, ok: bool, sig: Signals)
    requires Inv(s) && Rest(s)
    ensures CanStart(s, w, n, ok, sig) ==> Rest(DoStart(s, w, n, ok, sig))
    ensures CanComplete(s, w, n, ok, sig) ==> Rest(DoComplete(s, w, n, ok, sig))
  {
    if CanStart(s, w, n, ok, sig) {
      SameTidy(s.f, MarkAvailable(s.f, w).(signals := sig));
      ScheduleTidy(MarkAvailable(s.f, w).(signals := sig), Some(w), n);
    }
    if CanComplete(s, w, n, ok, sig) {
      InvokingKnown(s, w);
      var r := s.roles[w].ref;
      var g := s.f.(core := Publish(s.f.core, r, s.roles[w].outcome), signals := sig);
      WriteTidy(s.f, g, r.index);
      ReclaimTidies(g, r);
      SameTidy(ReclaimIfQuiescent(g, r), CompletePrefix(s.f, w, r, s.roles[w].outcome, sig));
      ScheduleTidy(CompletePrefix(s.f, w, r, s.roles[w].outcome, sig), Some(w), n);
    }
  }

  lemma {:induction false} ReturnRest(s: System, w: nat, outcome: InvocationOutcome, value: nat)
    requires Inv(s) && Rest(s) && CanReturn(s, w)
    ensures Rest(DoReturn(s, w, outcome, value))
  {
    var t := DoReturn(s, w, outcome, value);
    InvokingKnown(s, w);
    forall i: nat ensures TidyAt(t.f, i) { assert TidyAt(s.f, i); }
  }

  lemma {:induction false} ShutdownRest(s: System, sig: Signals)
    requires Inv(s) && Rest(s) && CanShutdown(s, sig)
    ensures Rest(DoShutdown(s, sig))
  {
    var g := s.f.(signals := sig);
    SameTidy(s.f, g);
    forall i | 0 <= i < |g.core.records| && !g.core.records[i].free && g.core.records[i].body.state.Queued?
      ensures g.core.records[i].body.owner
    {
      assert Names(s.f.core, s.ids, s.ids[i], RefOf(s.f.core, i));
      NamedKnown(s, s.ids[i], RefOf(s.f.core, i));
    }
    CancelFromTidy(g, 0);
    if s.f.core.queue == [] { CancelFromQueue(s.f.core, 0); }
  }
}
