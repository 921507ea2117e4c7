/** No interruption is lost: a Worker whose Task is asked to stop finds out, or has its signal latched, if
    it has looked since it last came back from its signal. */
module TaskInterrupts {
  import opened Registrations
  import opened TaskModel
  import opened TaskLedger
  import opened TaskProtocol
  import opened TaskSteps

  ghost predicate AlertAt(f: Facility, clear: set<nat>, c: nat) {
    Alerted(CancellationRequestedFor(f.core, c), f.signals, clear, c)
  }

  ghost predicate Alert(s: System) { forall c: nat :: AlertAt(s.f, s.clear, c) }

  // ---------------------------------------------------------------- who is asked to stop

  /** Nobody is asked in d who was not asked in c. */
  ghost predicate NoNewRequest(c: Core, d: Core) { forall i: nat, w: nat :: AsksAt(d, i, w) ==> AsksAt(c, i, w) }

  lemma {:induction false} RequestKept(c: Core, d: Core, w: nat)
    requires NoNewRequest(c, d) && CancellationRequestedFor(d, w)
    ensures CancellationRequestedFor(c, w)
  {
    var i :| 0 <= i < |d.records| && AsksAt(d, i, w);
  }

  lemma {:induction false} ScheduleAsksNobody(f: Facility, current: Option<nat>, n: nat)
    requires CanSchedule(f, current, n)
    ensures NoNewRequest(f.core, Schedule(f, current, n).core)
    decreases n
  {
    if n > 0 {
      var g := GrantNext(f, NextWorker(f, current));
      assert NoNewRequest(f.core, g.core);
      ScheduleAsksNobody(g, current, n - 1);
    }
  }

  /** Giving up, taking, publishing, running and reclaiming ask nobody to stop. */
  lemma {:induction false} WritesAskNobody(c: Core, r: Ref, outcome: InvocationOutcome, value: nat)
    ensures NoNewRequest(c, Release(c, r)) && NoNewRequest(c, Take(c, r))
    ensures NoNewRequest(c, Publish(c, r, outcome)) && NoNewRequest(c, Reclaim(c, r))
    ensures r.index < |c.records| ==> NoNewRequest(c, Invoke(c, r, outcome, value))
  {
  }

  lemma {:induction false} ReclaimAsksNobody(f: Facility, r: Ref)
    ensures NoNewRequest(f.core, ReclaimIfQuiescent(f, r).core)
  {
    WritesAskNobody(f.core, r, Abandoned, 0);
  }

  lemma {:induction false} AdmissionAsksNobody(f: Facility, work: nat, caller: Option<nat>, n: nat, sig: Signals,
      end: DispatchEnd)
    requires HasCapacity(f.core) && CanSchedule(AdmitPrefix(f, work, sig), caller, n)
    ensures var g := Schedule(AdmitPrefix(f, work, sig), caller, n);
      NoNewRequest(f.core, SettleSection(g, AdmittedRef(f.core), end).core)
  {
    var f1, r := AdmitPrefix(f, work, sig), AdmittedRef(f.core);
    assert NoNewRequest(f.core, f1.core);
    ScheduleAsksNobody(f1, caller, n);
    var g := Schedule(f1, caller, n);
    WritesAskNobody(g.core, r, Abandoned, 0);
    ReclaimAsksNobody(g.(core := Release(g.core, r)), r);
  }

  // ---------------------------------------------------------------- every step keeps everybody alert

  /** A step that asks nobody to stop, takes no signal back from those who found no interruption and lets
      nobody else find none. */
  lemma {:induction false} QuietStep(s: System, t: System)
    requires Alert(s) && NoNewRequest(s.f.core, t.f.core) && t.clear <= s.clear
    requires forall c :: c in t.clear && c in s.f.signals.latched ==> c in t.f.signals.latched
    requires s.f.signals.failed <= t.f.signals.failed
    ensures Alert(t)
  {
    forall c: nat ensures AlertAt(t.f, t.clear, c) {
      assert AlertAt(s.f, s.clear, c);
      if CancellationRequestedFor(t.f.core, c) { RequestKept(s.f.core, t.f.core, c); }
    }
  }

  /** One context more has found no interruption, and there is none for it. */
  lemma {:induction false} LookedStep(s: System, t: System, c: nat)
    requires Alert(s) && t.f == s.f && t.clear <= s.clear + {c}
    requires c in t.clear ==> !CancellationRequestedFor(s.f.core, c)
    ensures Alert(t)
  {
    forall k: nat ensures AlertAt(t.f, t.clear, k) { assert AlertAt(s.f, s.clear, k); }
  }

  lemma {:induction false} CancelAsks(c: Core, r: Ref, i: nat, w: nat)
    requires AsksAt(Cancel(c, r), i, w)
    ensures AsksAt(c, i, w) || w in Runner(c, r)
  {
  }

  lemma {:induction false} CancelAlerts(s: System, id: nat, sig: Signals)
    requires Inv(s) && Alert(s) && CanCancel(s, id, sig)
    ensures Alert(DoCancel(s, id, sig))
  {
    var t, r := DoCancel(s, id, sig), s.tokens[id];
    var g := s.f.(core := Cancel(s.f.core, r), signals := sig);
    ReclaimAsksNobody(g, r);
    forall c: nat ensures AlertAt(t.f, t.clear, c) {
      assert AlertAt(s.f, s.clear, c);
      if CancellationRequestedFor(t.f.core, c) {
        RequestKept(g.core, t.f.core, c);
        CancelRequestFrom(s.f.core, r, c);
      }
    }
  }

  lemma {:induction false} CancelRequestFrom(c: Core, r: Ref, w: nat)
    requires CancellationRequestedFor(Cancel(c, r), w)
    ensures CancellationRequestedFor(c, w) || w in Runner(c, r)
  {
    var d := Cancel(c, r);
    var i :| 0 <= i < |d.records| && AsksAt(d, i, w);
    CancelAsks(c, r, i, w);
  }

  /** Worker w runs the allocated Task in some slot from k on. */
  ghost predicate RunsFrom(c: Core, k: nat, w: nat) {
    exists i: nat :: k <= i && Live(c, i) && w in Runner(c, RefOf(c, i))
  }

  lemma {:induction false} ShutdownRequestFrom(c: Core, k: nat, w: nat)
    requires k <= |c.records| && CancellationRequestedFor(CancelFrom(c, k), w)
    ensures CancellationRequestedFor(c, w) || RunsFrom(c, k, w)
    decreases |c.records| - k
  {
    if k < |c.records| {
      var d := if c.records[k].free then c else Cancel(c, RefOf(c, k));
      ShutdownRequestFrom(d, k + 1, w);
      if RunsFrom(d, k + 1, w) {
        var i: nat :| k + 1 <= i && Live(d, i) && w in Runner(d, RefOf(d, i));
        assert Live(c, i) && w in Runner(c, RefOf(c, i));
      } else if !c.records[k].free {
        CancelRequestFrom(c, RefOf(c, k), w);
      }
    }
  }

  lemma {:induction false} ShutdownAlerts(s: System, sig: Signals)
    requires Inv(s) && Alert(s) && CanShutdown(s, sig)
    ensures Alert(DoShutdown(s, sig))
  {
    var t := DoShutdown(s, sig);
    forall c: nat ensures AlertAt(t.f, t.clear, c) {
      assert AlertAt(s.f, s.clear, c);
      if CancellationRequestedFor(t.f.core, c) {
        ShutdownRequestFrom(s.f.core, 0, c);
        if RunsFrom(s.f.core, 0, c) {
          var i: nat :| Live(s.f.core, i) && c in Runner(s.f.core, RefOf(s.f.core, i));
          assert SlotReached(s.f.(signals := sig), i, sig);
        }
      }
    }
  }

  lemma {:induction false} GiveUpAlerts(s: System, id: nat, sig: Signals)
    requires Inv(s) && Alert(s)
    ensures CanRelease(s, id, sig) ==> Alert(DoRelease(s, id, sig))
    ensures CanTake(s, id, sig) ==> Alert(DoTake(s, id, sig))
  {
    if CanRelease(s, id, sig) {
      var r := s.tokens[id];
      WritesAskNobody(s.f.core, r, Abandoned, 0);
      ReclaimAsksNobody(s.f.(core := Release(s.f.core, r), signals := sig), r);
      QuietStep(s, DoRelease(s, id, sig));
    }
    if CanTake(s, id, sig) {
      var r := s.tokens[id];
      WritesAskNobody(s.f.core, r, Abandoned, 0);
      ReclaimAsksNobody(s.f.(core := Take(s.f.core, r), signals := sig), r);
      QuietStep(s, DoTake(s, id, sig));
    }
  }

  lemma {:induction false} DispatchAlerts(s: System, caller: Option<nat>, policy: DispatchPolicy, work: nat, n: nat,
      ok: bool, sig: Signals)
    requires Inv(s) && Alert(s) && CanDispatch(s, caller, policy, work, n, ok, sig)
    ensures Alert(DoDispatch(s, caller, policy, work, n, ok, sig))
  {
    var t := DoDispatch(s, caller, policy, work, n, ok, sig);
    DispatchAsksNobody(s.f, caller, policy, work, n, ok, sig);
    assert t.f.signals == sig;
    QuietStep(s, t);
  }

  lemma {:induction false} DispatchAsksNobody(f: Facility, caller: Option<nat>, policy: DispatchPolicy, work: nat,
      n: nat, ok: bool, sig: Signals)
    requires HasCapacity(f.core) && CanSchedule(AdmitPrefix(f, work, sig), caller, n)
    ensures var g := DispatchSection(f, caller, policy, work, n, ok, sig);
      NoNewRequest(f.core, g.core) && g.signals == sig
  {
    var g := Schedule(AdmitPrefix(f, work, sig), caller, n);
    AdmissionAsksNobody(f, work, caller, n, sig, DispatchEnds(g, AdmittedRef(f.core), policy, ok, caller));
  }

  lemma {:induction false} TaskWaitAlerts(s: System, c: nat, id: nat, leave: bool, sig: Signals)
    requires Inv(s) && Alert(s)
    ensures CanEnterTaskWait(s, c, id) ==> Alert(DoEnterTaskWait(s, c, id))
    ensures CanRecheckTask(s, c, leave, sig) ==> Alert(DoRecheckTask(s, c, leave, sig))
  {
    if CanEnterTaskWait(s, c, id) { QuietStep(s, DoEnterTaskWait(s, c, id)); }
    if CanRecheckTask(s, c, leave, sig) {
      ReclaimAsksNobody(s.f.(waiters := Unregister(s.f.waiters, s.ops[c].slot), signals := sig), s.ops[c].ref);
      QuietStep(s, DoRecheckTask(s, c, leave, sig));
    }
  }

  lemma {:induction false} GrantWaitAlerts(s: System, c: nat, leave: bool, sig: Signals)
    requires Inv(s) && Alert(s)
    ensures c < |s.ops| && s.ops[c].Entering? ==> Alert(DoEnterGrantWait(s, c))
    ensures CanRecheckGrant(s, c, leave, sig) ==> Alert(DoRecheckGrant(s, c, leave, sig))
  {
    if c < |s.ops| && s.ops[c].Entering? {
      WaiterRoom(s, c);
      QuietStep(s, DoEnterGrantWait(s, c));
    }
    if CanRecheckGrant(s, c, leave, sig) {
      var t, r := DoRecheckGrant(s, c, leave, sig), s.ops[c].ref;
      var g := s.f.(waiters := Unregister(s.f.waiters, s.ops[c].slot), signals := sig);
      if Granted(s.f.core, r) {
        ReclaimAsksNobody(g, r);
        QuietStep(s, t);
      } else if leave {
        WritesAskNobody(g.core, r, Abandoned, 0);
        ReclaimAsksNobody(g.(core := Release(g.core, r)), r);
        QuietStep(s, t);
      } else {
        LookedStep(s, t, c);
      }
    }
  }

  lemma {:induction false} CapacityWaitAlerts(s: System, c: nat, leave: bool)
    requires Inv(s) && Alert(s)
    ensures MayCall(s, c) ==> Alert(DoEnterCapacityWait(s, c))
    ensures CanRecheckCapacity(s, c, leave) ==> Alert(DoRecheckCapacity(s, c, leave))
  {
    if MayCall(s, c) { QuietStep(s, DoEnterCapacityWait(s, c)); }
    if CanRecheckCapacity(s, c, leave) {
      if HasCapacity(s.f.core) || leave { QuietStep(s, DoRecheckCapacity(s, c, leave)); }
      else { LookedStep(s, DoRecheckCapacity(s, c, leave), c); }
    }
  }

  lemma {:induction false} SignalAlerts(s: System, c: nat, consumed: bool)
    requires Inv(s) && Alert(s)
    ensures CanReturnFromSignal(s, c, consumed) ==> Alert(DoReturnFromSignal(s, c, consumed))
    ensures Alert(DoStray(s, c))
    ensures MayCall(s, c) ==> Alert(DoSpend(s, c))
    ensures c < |s.ops| ==> Alert(DoLookAround(s, c))
    ensures CanWorkerWake(s, c, consumed) ==> Alert(DoWorkerWake(s, c, consumed))
  {
    if CanReturnFromSignal(s, c, consumed) { QuietStep(s, DoReturnFromSignal(s, c, consumed)); }
    QuietStep(s, DoStray(s, c));
    if MayCall(s, c) { QuietStep(s, DoSpend(s, c)); }
    if c < |s.ops| { LookedStep(s, DoLookAround(s, c), c); }
    if CanWorkerWake(s, c, consumed) { QuietStep(s, DoWorkerWake(s, c, consumed)); }
  }

  lemma {:induction false} StartAlerts(s: System, w: nat, n: nat, ok: bool, sig: Signals)
    requires Inv(s) && Alert(s) && CanStart(s, w, n, ok, sig)
    ensures Alert(DoStart(s, w, n, ok, sig))
  {
    ScheduleAsksNobody(MarkAvailable(s.f, w).(signals := sig), Some(w), n);
    QuietStep(s, DoStart(s, w, n, ok, sig));
  }

  lemma {:induction false} CompletionAsksNobody(f: Facility, w: nat, r: Ref, outcome: InvocationOutcome, n: nat,
      sig: Signals)
    requires CanSchedule(CompletePrefix(f, w, r, outcome, sig), Some(w), n)
    ensures NoNewRequest(f.core, Schedule(CompletePrefix(f, w, r, outcome, sig), Some(w), n).core)
  {
    WritesAskNobody(f.core, r, outcome, 0);
    ReclaimAsksNobody(f.(core := Publish(f.core, r, outcome), signals := sig), r);
    ScheduleAsksNobody(CompletePrefix(f, w, r, outcome, sig), Some(w), n);
  }

  lemma {:induction false} CompletionAlerts(s: System, w: nat, n: nat, ok: bool, sig: Signals)
    requires Inv(s) && Alert(s) && CanComplete(s, w, n, ok, sig)
    ensures Alert(DoComplete(s, w, n, ok, sig))
  {
    CompletionAsksNobody(s.f, w, s.roles[w].ref, s.roles[w].outcome, n, sig);
    QuietStep(s, DoComplete(s, w, n, ok, sig));
  }

  lemma {:induction false} TurnsAlert(s: System, w: nat, outcome: InvocationOutcome, value: nat)
    requires Inv(s) && Alert(s)
    ensures CanLook(s, w) ==> Alert(DoLook(s, w)) && Alert(DoExit(s, w))
    ensures CanReturn(s, w) ==> Alert(DoReturn(s, w, outcome, value))
  {
    if CanLook(s, w) {
      QuietStep(s, DoLook(s, w));
      QuietStep(s, DoExit(s, w));
    }
    if CanReturn(s, w) {
      InvokingKnown(s, w);
      WritesAskNobody(s.f.core, s.roles[w].ref, outcome, value);
      QuietStep(s, DoReturn(s, w, outcome, value));
    }
  }
}
