/** The facilities of one topology and their mutexes: where a context of the interleaved runs looks for an
    interruption with a mutex in hand, which sections end a payload, and that each of them is a legal
    section of the lock discipline. */
module LockBinding {
  import opened Registrations
  import opened TaskModel
  import opened TaskLedger
  import opened TaskProtocol
  import opened TaskSteps
  import opened TaskRuns
  import L = LockDiscipline

  /** The context is inside a dispatch call that waits for capacity or for a grant. */
  predicate InDispatchWait(op: Op) { op.AwaitingCapacity? || op.Entering? || (op.Waiter? && op.kind.ForGrant?) }

  /** The facilities in the states fs, facility k with mutex k, are described by the topology p; handles
      says to which facilities the Task handles inside a callable or a result belong. */
  ghost predicate Describes(p: L.Topology, fs: seq<System>, handles: Payload -> set<nat>) {
    && L.Valid(p) && |fs| <= |p.ranges|
    && (forall k :: 0 <= k < |fs| ==> p.ranges[k] == L.Range(fs[k].f.first, |fs[k].f.workers|))
    && (forall k: nat, c: nat :: WaitIn(fs, k, c) ==> (c, k) in p.waits)
    && (forall k: nat, i: nat, j: nat :: HandleIn(fs, handles, k, i, j) ==> (k, j) in p.owns)
  }

  ghost predicate WaitIn(fs: seq<System>, k: nat, c: nat) {
    k < |fs| && c < |fs[k].ops| && InDispatchWait(fs[k].ops[c])
  }

  ghost predicate HandleIn(fs: seq<System>, handles: Payload -> set<nat>, k: nat, i: nat, j: nat) {
    k < |fs| && Live(fs[k].f.core, i) && j in handles(fs[k].f.core.records[i].body.payload)
  }

  // ---------------------------------------------------------------- sections

  /** One after the other each of these mutexes is taken and given back. */
  function Each(js: seq<nat>): seq<L.Op> { if js == [] then [] else [L.Take(js[0]), L.Give(js[0])] + Each(js[1..]) }

  /** A section of facility k in which other mutexes are taken one after the other. */
  function Section(k: nat, js: seq<nat>): seq<L.Op> { [L.Take(k)] + (Each(js) + [L.Give(k)]) }

  lemma {:induction false} EachIsLegal(p: L.Topology, c: nat, k: nat, js: seq<nat>)
    requires k < |p.ranges| && forall i :: 0 <= i < |js| ==> js[i] < |p.ranges| && L.Link(p, c, k, js[i])
    ensures L.Legal(p, c, [k], Each(js) + [L.Give(k)])
    ensures L.Reenters([k], Each(js) + [L.Give(k)]) <==> k in js
  {
    var ops := Each(js) + [L.Give(k)];
    if js == [] {
      assert ops == [L.Give(k)] && ops[1..] == [] && [k][..0] == [];
    } else {
      var j, rest := js[0], Each(js[1..]) + [L.Give(k)];
      EachIsLegal(p, c, k, js[1..]);
      assert ops == [L.Take(j), L.Give(j)] + rest && ops[1..] == [L.Give(j)] + rest && ops[1..][1..] == rest;
      assert [k] + [j] == [k, j] && [k, j][..1] == [k];
      assert L.Legal(p, c, [k, j], ops[1..]);
      assert L.Reenters([k, j], ops[1..]) <==> L.Reenters([k], rest);
    }
  }

  /** Such a section is legal when every link is there, and meets its own mutex exactly when that is among
      the others. */
  lemma {:induction false} SectionIsLegal(p: L.Topology, c: nat, k: nat, js: seq<nat>)
    requires k < |p.ranges| && forall i :: 0 <= i < |js| ==> js[i] < |p.ranges| && L.Link(p, c, k, js[i])
    ensures L.Legal(p, c, [], Section(k, js))
    ensures L.Reenters([], Section(k, js)) <==> k in js
  {
    EachIsLegal(p, c, k, js);
    assert Section(k, js)[1..] == Each(js) + [L.Give(k)] && [] + [k] == [k];
  }

  // ---------------------------------------------------------------- which sections end a payload

  /** The step destroys the callable or the result of Task id. */
  ghost predicate Ends(s: System, t: System, id: nat) {
    && id < |s.ledger.tasks| && id < |t.ledger.tasks|
    && !s.ledger.tasks[id].body.payload.Empty? && t.ledger.tasks[id].body.payload.Empty?
  }

  /** Cancellation destroys exactly the callable of a Queued Task; giving up a handle that and the result of
      a completed one. */
  lemma {:induction false} HandleCallsEnd(s: System, id: nat, sig: Signals)
    requires Inv(s) && id in s.tokens
    ensures CanCancel(s, id, sig) ==> (Ends(s, DoCancel(s, id, sig), id) <==> IsQueued(s.f.core, s.tokens[id]))
    ensures CanRelease(s, id, sig) ==>
      (Ends(s, DoRelease(s, id, sig), id) <==> IsQueued(s.f.core, s.tokens[id]) || IsCompleted(s.f.core, s.tokens[id]))
  {
    TokenKnown(s, id);
    NamedKnown(s, id, s.tokens[id]);
    ReplayOne(s.ledger, CancelRequested(id));
    ReplayOne(s.ledger, OwnerReleased(id));
  }

  /** Leaving a wait for a grant destroys the callable that was dispatched exactly when it is still queued:
      neither granted nor cancelled by a shutdown. */
  lemma {:induction false} AbandoningEnds(s: System, c: nat, leave: bool, sig: Signals)
    requires Inv(s) && CanRecheckGrant(s, c, leave, sig)
    ensures Ends(s, DoRecheckGrant(s, c, leave, sig), s.ops[c].id) <==> leave && IsQueued(s.f.core, s.ops[c].ref)
  {
    var id := s.ops[c].id;
    assert OpOk(s.f.core, s.ids, s.f.waiters, s.tokens, s.unreturned, s.ops, c);
    TokenKnown(s, id);
    NamedKnown(s, id, s.ops[c].ref);
    ReplayOne(s.ledger, OwnerReleased(id));
  }

  // ---------------------------------------------------------------- every section is legal

  /** The mutexes that the end of the payload in slot i of facility k takes, in some order. */
  ghost predicate HandlesOf(fs: seq<System>, handles: Payload -> set<nat>, k: nat, i: nat, js: seq<nat>) {
    forall n :: 0 <= n < |js| ==> HandleIn(fs, handles, k, i, js[n])
  }

  /** A context that destroys the payload in slot i of facility k, by whichever call, goes through a legal
      section, and never returns from it when a handle of that same facility is inside. */
  lemma {:induction false} EndingIsASection(p: L.Topology, fs: seq<System>, handles: Payload -> set<nat>, c: nat,
      k: nat, i: nat, js: seq<nat>)
    requires Describes(p, fs, handles) && k < |fs| && HandlesOf(fs, handles, k, i, js)
    ensures L.Legal(p, c, [], Section(k, js))
    ensures L.Reenters([], Section(k, js)) <==> k in js
  {
    forall n | 0 <= n < |js| ensures js[n] < |p.ranges| && L.Link(p, c, k, js[n]) {
      assert HandleIn(fs, handles, k, i, js[n]) && (k, js[n]) in p.owns;
    }
    SectionIsLegal(p, c, k, js);
  }

  /** The recheck of a dispatch wait asks the owner of the context for an interruption, when it does not find
      what it waits for. */
  function Asked(p: L.Topology, c: nat, found: bool): seq<nat> {
    var owner := L.Owner(p.ranges, c);
    if found || owner.None? then [] else [owner.value]
  }

  /** A recheck of either dispatch wait, which may also end the callable it dispatched, is a legal section of
      a context that waits there; when it ends nothing, it meets its own mutex exactly when it must ask and
      the context is a Worker of the facility in which it waits. */
  lemma {:induction false} RecheckIsASection(p: L.Topology, fs: seq<System>, handles: Payload -> set<nat>, k: nat,
      c: nat, found: bool, i: nat, js: seq<nat>)
    requires Describes(p, fs, handles) && k < |fs| && WaitIn(fs, k, c) && HandlesOf(fs, handles, k, i, js)
    ensures L.Legal(p, c, [], Section(k, Asked(p, c, found) + js))
    ensures L.Reenters([], Section(k, Asked(p, c, found) + js)) <==>
      (!found && L.Owner(p.ranges, c) == Some(k)) || k in js
    ensures L.Owner(p.ranges, c) == Some(k) ==> IsWorker(fs[k].f, c)
  {
    var all := Asked(p, c, found) + js;
    forall n | 0 <= n < |all| ensures all[n] < |p.ranges| && L.Link(p, c, k, all[n]) {
      var m := n - |Asked(p, c, found)|;
      if m >= 0 { assert HandleIn(fs, handles, k, i, js[m]) && (k, js[m]) in p.owns; }
    }
    SectionIsLegal(p, c, k, all);
    assert k in all <==> k in Asked(p, c, found) || k in js;
  }

  /** The two rechecks of the runs: what each finds decides whether it asks, and a Worker that waits in its
      own facility and does not find what it waits for never returns. */
  lemma {:induction false} RechecksAreSections(p: L.Topology, fs: seq<System>, handles: Payload -> set<nat>, k: nat,
      c: nat, leave: bool, sig: Signals, js: seq<nat>)
    requires Describes(p, fs, handles) && k < |fs|
    ensures CanRecheckGrant(fs[k], c, leave, sig) && HandlesOf(fs, handles, k, fs[k].ops[c].ref.index, js) ==>
      L.Legal(p, c, [], Section(k, Asked(p, c, Granted(fs[k].f.core, fs[k].ops[c].ref)) + js))
    ensures CanRecheckGrant(fs[k], c, leave, sig) && L.Owner(p.ranges, c) == Some(k) ==>
      (L.Reenters([], Section(k, Asked(p, c, Granted(fs[k].f.core, fs[k].ops[c].ref)))) <==>
       !Granted(fs[k].f.core, fs[k].ops[c].ref))
    ensures CanRecheckCapacity(fs[k], c, leave) ==>
      L.Legal(p, c, [], Section(k, Asked(p, c, HasCapacity(fs[k].f.core))))
    ensures CanRecheckCapacity(fs[k], c, leave) && L.Owner(p.ranges, c) == Some(k) ==>
      (L.Reenters([], Section(k, Asked(p, c, HasCapacity(fs[k].f.core)))) <==> !HasCapacity(fs[k].f.core))
  {
    if CanRecheckGrant(fs[k], c, leave, sig) {
      var found, i := Granted(fs[k].f.core, fs[k].ops[c].ref), fs[k].ops[c].ref.index;
      assert WaitIn(fs, k, c);
      if HandlesOf(fs, handles, k, i, js) { RecheckIsASection(p, fs, handles, k, c, found, i, js); }
      RecheckIsASection(p, fs, handles, k, c, found, i, []);
      assert Asked(p, c, found) + [] == Asked(p, c, found);
    }
    if CanRecheckCapacity(fs[k], c, leave) {
      var found := HasCapacity(fs[k].f.core);
      assert WaitIn(fs, k, c);
      RecheckIsASection(p, fs, handles, k, c, found, 0, []);
      assert Asked(p, c, found) + [] == Asked(p, c, found);
    }
  }
}
