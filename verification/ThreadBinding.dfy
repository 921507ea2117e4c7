/** The two halves of the Dedicated Thread meet: what the methods of its runtime ensure is what the steps
    of the interleaved runs do.  h is the thread when the method has returned. */
module ThreadBinding {
  import opened Registrations
  import opened Runs
  import opened Lifecycle
  import opened ThreadModel
  import opened ThreadProtocol
  import opened ThreadGuarantees
  import R = ThreadRuntime

  /** Where start caller c stands in u, and what it is told, once StartActivation has returned. */
  ghost predicate StartEndsAs(s: System, u: System, c: nat, h: Thread, result: R.StartResult) {
    && u.t == h && u.holder.None? && c < |u.starts| && u.starts[c].NotStarting?
    && u.activations == s.activations + (if result.Started? then 1 else 0)
    && (result == R.ShuttingDown <==> !CanActivate(s.lifecycle))
    && (result == R.AlreadyRunning <==> CanActivate(s.lifecycle) && IsActive(s.t.control))
    && (result == R.ActivationFailed <==>
          CanActivate(s.lifecycle) && !IsActive(s.t.control) && u.activations == s.activations)
  }

  /** StartActivation, from the second look at the lifecycle on, is a run of one or two steps. */
  lemma {:induction false} StartIsARun(s: System, c: nat, woken: bool, h: Thread) returns (u: System)
    requires c < |s.starts| && s.starts[c].Inside?
    requires CanActivate(s.lifecycle) ==>
      StartReached(s.t, s.own, woken, h.signals) && h == StartSection(s.t, h.signals, woken)
    requires !CanActivate(s.lifecycle) ==> h == s.t
    ensures Leads(Next, s, u)
    ensures StartEndsAs(s, u, c, h, if CanActivate(s.lifecycle) then R.Outcome(s.t.control, woken) else R.ShuttingDown)
  {
    LeadsNowhere(Next, s);
    u := Act(s, StartLookAgain(c));
    LeadsOn(Next, s, s, u);
    if CanActivate(s.lifecycle) {
      var commit := StartCommit(c, woken, h.signals);
      LeadsOn(Next, s, u, Act(u, commit));
      u := Act(u, commit);
    }
  }

  /** RequestStop is a step, from a handle and from the shutdown traversal alike. */
  lemma {:induction false} StopIsAStep(s: System, i: nat, h: Thread)
    requires s.holder.None? && StopReached(s.t, s.own, h.signals) && h == StopSection(s.t, h.signals)
    ensures CanAct(s, StopRequest(h.signals)) && Act(s, StopRequest(h.signals)).t == h
    ensures i < |s.boots| && s.boots[i].BegunShutdown? ==>
      CanAct(s, BootTraverse(i, h.signals)) && Act(s, BootTraverse(i, h.signals)).t == h
  {
  }

  /** In every state of every run the trampoline's publication finds its own activation running, so what
      PublishStopped ensures is the step in which the callable returns. */
  lemma {:induction false} PublicationIsAStep(s: System, h: Thread)
    requires Inv(s) && s.trampoline.Invoking? && s.holder.None? && s.joins[s.own].NotJoining?
    requires PublishReached(s.t, s.trampoline.phase, h.signals)
    requires h == PublishSection(s.t, s.trampoline.phase, h.signals)
    ensures PublicationOf(s.t.control, s.trampoline.phase) == Published
    ensures CanAct(s, CallableReturn(h.signals)) && Act(s, CallableReturn(h.signals)).t == h
    ensures Act(s, CallableReturn(h.signals)).published == s.published + {s.activations}
  {
  }

  /** What EnterJoin answers is what has happened to the thread: never started when there was no activation,
      joined at once when the latest one is over, and otherwise registered for the latest one, by its parity.
      That is where the joiner stands afterwards; it always finds room. */
  lemma {:induction false} JoinEntryIsAStep(s: System, c: nat, h: Thread)
    requires Inv(s) && CanAct(s, JoinEnter(c)) && h == JoinEntry(s.t, c)
    ensures Act(s, JoinEnter(c)).t == h
    ensures match R.JoinEntryOf(s.t)
      case JoinRegistered(slot, captured) =>
        Act(s, JoinEnter(c)).joins[c] == Joining(s.activations, captured, slot, true, false)
      case NoJoinRoom => false
      case NeverStartedYet => s.activations == 0 && Act(s, JoinEnter(c)).joins == s.joins
      case JoinedAtOnce =>
        s.activations > 0 && s.activations in s.published && Act(s, JoinEnter(c)).joins == s.joins
    ensures R.JoinEntryOf(s.t).JoinRegistered? ==>
      s.activations > 0 && s.activations !in s.published
      && (R.JoinEntryOf(s.t).captured <==> s.activations % 2 == 1)
  {
    JoinRoom(s, c);
    assert PublishedAt(s.t.control, s.activations, s.published, s.activations);
  }

  lemma {:induction false} JoinRecheckIsAStep(s: System, c: nat, leave: bool, h: Thread)
    requires CanAct(s, JoinLook(c, leave))
    requires h == JoinRecheck(s.t, s.joins[c].slot, s.joins[c].captured, leave)
    ensures var u := Act(s, JoinLook(c, leave));
      && u.t == h
      && (u.joins[c].NotJoining? <==> IsActivationStopped(s.t.control, s.joins[c].captured) || leave)
  {
  }
}
