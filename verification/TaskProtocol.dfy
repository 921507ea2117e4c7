/** The facility together with everything that talks to it: the live handles, the managed contexts
    with their program counters and latched signals, the Worker trampolines, and the ideal ledger
    that says which Task each slot currently holds.  Inv is what holds between any two steps. */
module TaskProtocol {
  import opened Registrations
  import opened TaskModel
  import opened TaskLedger

  datatype WaitKind = ForTerminal | ForGrant

  /** Where a managed context stands inside a facility call.  A parked context is about to block on
      its signal; otherwise it has come back and has not looked at the facility yet. */
  datatype Op =
    | Idle
    | Entering(id: nat, ref: Ref)
    | Waiter(kind: WaitKind, id: nat, ref: Ref, slot: nat, parked: bool)
    | AwaitingCapacity(slot: nat, parked: bool)

  /** Where a Worker trampoline stands.  Unlisted: started no facility work yet. */
  datatype Role =
    | NotWorker
    | Unlisted
    | Looking
    | Parked
    | Exited
    | Invoking(id: nat, ref: Ref)
    | Returned(id: nat, ref: Ref, outcome: InvocationOutcome)

  /** ids[i] is the Task in slot i; home[id] the slot of Task id; serving[w] the slot Worker w was
      granted; tokens the live handles by Task; unreturned the Tasks whose dispatch call is still
      waiting for a grant, with the context inside that call; clear the contexts that have looked for an
      interruption, found none and have not come back from their signal since. */
  datatype System = System(
    f: Facility,
    ids: seq<nat>,
    home: seq<nat>,
    serving: seq<Option<nat>>,
    ledger: Ledger,
    tokens: map<nat, Ref>,
    unreturned: map<nat, nat>,
    ops: seq<Op>,
    roles: seq<Role>,
    clear: set<nat>)

  // ---------------------------------------------------------------- the invariant

  /** The reference names the current incarnation of an allocated slot, and that is Task id. */
  ghost predicate Names(c: Core, ids: seq<nat>, id: nat, r: Ref) {
    && Live(c, r.index) && r.index < |ids|
    && c.records[r.index].phase == r.phase
    && ids[r.index] == id
  }

  function IdAt(ids: seq<nat>, i: nat): nat { if i < |ids| then ids[i] else 0 }

  function IdsOf(ids: seq<nat>, q: seq<nat>): seq<nat> {
    if q == [] then [] else [IdAt(ids, q[0])] + IdsOf(ids, q[1..])
  }

  ghost predicate Shape(s: System) {
    && |s.ids| == |s.f.core.records| && |s.home| == |s.ledger.tasks|
    && |s.f.waiters| == |s.ops| && |s.f.admission| == |s.ops|
    && |s.roles| == |s.ops| && |s.serving| == |s.ops|
    && s.f.first + |s.f.workers| <= |s.ops|
  }

  // The slots against the ledger.

  /** How many Tasks slot i has held so far. */
  function Uses(home: seq<nat>, i: nat): nat {
    if home == [] then 0 else Uses(home[..|home| - 1], i) + (if home[|home| - 1] == i then 1 else 0)
  }

  /** The Phase of a slot is the parity of its uses. */
  ghost predicate RowOk(c: Core, ids: seq<nat>, home: seq<nat>, l: Ledger, i: nat) {
    i < |c.records| && i < |ids| ==>
      (c.records[i].phase <==> Uses(home, i) % 2 == 1) &&
      if c.records[i].free then !c.records[i].body.owner && !IsRunning(c.records[i].body)
      else ids[i] < |home| && home[ids[i]] == i
           && ids[i] < |l.tasks| && l.tasks[ids[i]].body == c.records[i].body
  }

  ghost predicate HomeOk(c: Core, ids: seq<nat>, home: seq<nat>, l: Ledger, id: nat) {
    id < |home| && id < |l.tasks| ==>
      home[id] < |c.records| &&
      ((Live(c, home[id]) && home[id] < |ids| && ids[home[id]] == id) || Retired(l.tasks[id].body))
  }

  ghost predicate TableOk(c: Core, ids: seq<nat>, home: seq<nat>, l: Ledger) {
    && (forall i: nat :: RowOk(c, ids, home, l, i))
    && (forall id: nat :: HomeOk(c, ids, home, l, id))
  }

  ghost predicate QueuedOk(c: Core, k: nat) { k < |c.queue| ==> Live(c, c.queue[k]) }

  ghost predicate QueueOk(c: Core, ids: seq<nat>, l: Ledger) {
    && (forall k: nat :: QueuedOk(c, k))
    && l.queue == IdsOf(ids, c.queue)
  }

  // Handles.

  ghost predicate TokenOk(c: Core, ids: seq<nat>, tokens: map<nat, Ref>, id: nat) {
    id in tokens ==> Names(c, ids, id, tokens[id]) && c.records[tokens[id].index].body.owner
  }

  ghost predicate OwnerOk(c: Core, ids: seq<nat>, tokens: map<nat, Ref>, i: nat) {
    Live(c, i) && i < |ids| && c.records[i].body.owner ==> ids[i] in tokens
  }

  ghost predicate TokensOk(c: Core, ids: seq<nat>, tokens: map<nat, Ref>, unreturned: map<nat, nat>) {
    && (forall id: nat :: TokenOk(c, ids, tokens, id))
    && (forall i: nat :: OwnerOk(c, ids, tokens, i))
    && unreturned.Keys <= tokens.Keys
  }

  // Waiting contexts and their registrations.

  ghost predicate OpOk(c: Core, ids: seq<nat>, waiters: seq<Slot<Ref>>, tokens: map<nat, Ref>,
                       unreturned: map<nat, nat>, ops: seq<Op>, k: nat) {
    k < |ops| ==>
    match ops[k]
    case Idle => true
    case Entering(id, ref) =>
      id in unreturned && unreturned[id] == k && id in tokens && tokens[id] == ref
    case Waiter(kind, id, ref, slot, _) =>
      && Names(c, ids, id, ref)
      && slot < |waiters| && waiters[slot] == Active(ref, k)
      && (if kind.ForGrant?
          then id in unreturned && unreturned[id] == k && id in tokens && tokens[id] == ref
          else id !in unreturned)
    case AwaitingCapacity(_, _) => true
  }

  ghost predicate SlotOk(waiters: seq<Slot<Ref>>, ops: seq<Op>, j: nat) {
    j < |waiters| && waiters[j].Active? ==>
      waiters[j].context < |ops| && ops[waiters[j].context].Waiter? && ops[waiters[j].context].slot == j
  }

  ghost predicate WaitsOk(c: Core, ids: seq<nat>, waiters: seq<Slot<Ref>>, tokens: map<nat, Ref>,
                          unreturned: map<nat, nat>, ops: seq<Op>) {
    && (forall k: nat :: OpOk(c, ids, waiters, tokens, unreturned, ops, k))
    && (forall j: nat :: SlotOk(waiters, ops, j))
  }

  ghost predicate CapacityOpOk(admission: seq<Slot<()>>, ops: seq<Op>, k: nat) {
    k < |ops| && ops[k].AwaitingCapacity? ==>
      ops[k].slot < |admission| && admission[ops[k].slot] == Active((), k)
  }

  ghost predicate CapacitySlotOk(admission: seq<Slot<()>>, ops: seq<Op>, j: nat) {
    j < |admission| && admission[j].Active? ==>
      admission[j].context < |ops| && ops[admission[j].context].AwaitingCapacity?
      && ops[admission[j].context].slot == j
  }

  ghost predicate AdmissionOk(admission: seq<Slot<()>>, ops: seq<Op>) {
    && (forall k: nat :: CapacityOpOk(admission, ops, k))
    && (forall j: nat :: CapacitySlotOk(admission, ops, j))
  }

  // Workers.

  /** Worker w and the record it serves.  free says whether w is in the available set. */
  ghost predicate RoleOk(c: Core, ids: seq<nat>, free: bool, serves: Option<nat>, role: Role, w: nat) {
    && (free ==> serves.None?)
    && (serves.Some? ==>
          var i := serves.value;
          && Live(c, i) && IsRunning(c.records[i].body) && c.records[i].body.grant == Some(w)
          && (role.Returned? || c.records[i].body.payload.Callable?))
    && match role
       case NotWorker => false
       case Unlisted => serves.None? && !free
       case Looking => serves.None? ==> free
       case Parked => serves.None? ==> free
       case Exited => serves.None? ==> free
       case Invoking(id, ref) => serves == Some(ref.index) && Names(c, ids, id, ref)
       case Returned(id, ref, outcome) =>
         && serves == Some(ref.index) && Names(c, ids, id, ref)
         && !c.records[ref.index].body.payload.Callable?
         && (outcome.Finished? <==> c.records[ref.index].body.payload.Result?)
  }

  ghost predicate WorkerOk(c: Core, ids: seq<nat>, workers: seq<bool>, first: nat,
                           serving: seq<Option<nat>>, roles: seq<Role>, w: nat) {
    w < |roles| && w < |serving| ==>
      if first <= w < first + |workers|
      then RoleOk(c, ids, workers[w - first], serving[w], roles[w], w)
      else roles[w].NotWorker? && serving[w].None?
  }

  ghost predicate RunOk(c: Core, serving: seq<Option<nat>>, i: nat) {
    Live(c, i) && IsRunning(c.records[i].body) ==>
      && c.records[i].body.grant.Some? && c.records[i].body.grant.value < |serving|
      && serving[c.records[i].body.grant.value] == Some(i)
  }

  ghost predicate WorkersOk(c: Core, ids: seq<nat>, workers: seq<bool>, first: nat,
                            serving: seq<Option<nat>>, roles: seq<Role>) {
    && (forall i: nat :: RunOk(c, serving, i))
    && (forall w: nat :: WorkerOk(c, ids, workers, first, serving, roles, w))
  }

  /** Only user code calls into a facility: a trampoline of a Worker does not wait there itself. */
  ghost predicate CallerOk(ops: seq<Op>, roles: seq<Role>, k: nat) {
    k < |ops| && k < |roles| && !ops[k].Idle? ==> roles[k].NotWorker? || roles[k].Invoking?
  }

  ghost predicate CallersOk(ops: seq<Op>, roles: seq<Role>) {
    forall k: nat :: CallerOk(ops, roles, k)
  }

  // No lost wake-up, for contexts no notification to which has failed.

  ghost predicate WaitOver(c: Core, op: Op) {
    && op.Waiter? && op.ref.index < |c.records|
    && (if op.kind.ForTerminal? then IsTerminal(c.records[op.ref.index].body)
        else HasGrant(c.records[op.ref.index].body))
  }

  ghost predicate WaiterAwake(c: Core, sig: Signals, ops: seq<Op>, k: nat) {
    k < |ops| && ops[k].Waiter? && ops[k].parked && WaitOver(c, ops[k]) ==> k in sig.latched + sig.failed
  }

  ghost predicate SomeFree(c: Core) { exists i :: 0 <= i < |c.records| && c.records[i].free }

  ghost predicate CapacityAwake(c: Core, sig: Signals, ops: seq<Op>, k: nat) {
    k < |ops| && ops[k].AwaitingCapacity? && ops[k].parked && SomeFree(c) ==> k in sig.latched + sig.failed
  }

  ghost predicate WorkerAwake(sig: Signals, serving: seq<Option<nat>>, roles: seq<Role>, w: nat) {
    w < |roles| && w < |serving| && roles[w].Parked? && serving[w].Some? ==> w in sig.latched
  }

  ghost predicate WakeOk(c: Core, sig: Signals, ops: seq<Op>, serving: seq<Option<nat>>, roles: seq<Role>) {
    && (forall k: nat :: WaiterAwake(c, sig, ops, k))
    && (forall k: nat :: CapacityAwake(c, sig, ops, k))
    && (forall w: nat :: WorkerAwake(sig, serving, roles, w))
  }

  ghost predicate Inv(s: System) {
    && Shape(s)
    && Good(s.ledger)
    && TableOk(s.f.core, s.ids, s.home, s.ledger)
    && QueueOk(s.f.core, s.ids, s.ledger)
    && TokensOk(s.f.core, s.ids, s.tokens, s.unreturned)
    && WaitsOk(s.f.core, s.ids, s.f.waiters, s.tokens, s.unreturned, s.ops)
    && AdmissionOk(s.f.admission, s.ops)
    && WorkersOk(s.f.core, s.ids, s.f.workers, s.f.first, s.serving, s.roles)
    && CallersOk(s.ops, s.roles)
    && WakeOk(s.f.core, s.f.signals, s.ops, s.serving, s.roles)
  }

  // ---------------------------------------------------------------- frames

  /** Every reference that named a Task still names it. */
  ghost predicate NamesKept(c: Core, ids: seq<nat>, d: Core, jds: seq<nat>) {
    forall id, r :: Names(c, ids, id, r) ==> Names(d, jds, id, r)
  }

  lemma {:induction false} WaitsFrame(c: Core, ids: seq<nat>, d: Core, jds: seq<nat>,
      waiters: seq<Slot<Ref>>, tokens: map<nat, Ref>, tokens': map<nat, Ref>,
      unreturned: map<nat, nat>, ops: seq<Op>)
    requires WaitsOk(c, ids, waiters, tokens, unreturned, ops)
    requires NamesKept(c, ids, d, jds)
    requires forall id :: id in tokens && id in unreturned ==> id in tokens' && tokens'[id] == tokens[id]
    ensures WaitsOk(d, jds, waiters, tokens', unreturned, ops)
  {
    forall k: nat ensures OpOk(d, jds, waiters, tokens', unreturned, ops, k) {
      assert OpOk(c, ids, waiters, tokens, unreturned, ops, k);
    }
  }

  /** Waits over in d were over before or are reached by the signals. */
  lemma {:induction false} WakeFrame(c: Core, d: Core, sig: Signals, ops: seq<Op>,
      serving: seq<Option<nat>>, roles: seq<Role>)
    requires WakeOk(c, sig, ops, serving, roles)
    requires forall k :: 0 <= k < |ops| && ops[k].Waiter? && ops[k].parked && WaitOver(d, ops[k]) ==>
      WaitOver(c, ops[k]) || k in sig.latched + sig.failed
    requires SomeFree(d) ==> SomeFree(c)
    ensures WakeOk(d, sig, ops, serving, roles)
  {
    forall k: nat ensures WaiterAwake(d, sig, ops, k) { assert WaiterAwake(c, sig, ops, k); }
    forall k: nat ensures CapacityAwake(d, sig, ops, k) { assert CapacityAwake(c, sig, ops, k); }
  }

  /** The running records are the same, with the same Workers and the same buffers. */
  ghost predicate SameRun(c: Core, d: Core, i: nat) {
    && (Live(d, i) && IsRunning(d.records[i].body) <==> Live(c, i) && IsRunning(c.records[i].body))
    && (Live(d, i) && IsRunning(d.records[i].body) ==>
          && c.records[i].body.grant == d.records[i].body.grant
          && c.records[i].body.payload == d.records[i].body.payload)
  }

  lemma {:induction false} WorkersFrame(c: Core, ids: seq<nat>, d: Core, jds: seq<nat>, workers: seq<bool>,
      first: nat, serving: seq<Option<nat>>, roles: seq<Role>)
    requires WorkersOk(c, ids, workers, first, serving, roles)
    requires NamesKept(c, ids, d, jds)
    requires forall i: nat :: SameRun(c, d, i)
    ensures WorkersOk(d, jds, workers, first, serving, roles)
  {
    forall i: nat ensures RunOk(d, serving, i) {
      assert SameRun(c, d, i) && RunOk(c, serving, i);
    }
    forall w: nat ensures WorkerOk(d, jds, workers, first, serving, roles, w) {
      assert WorkerOk(c, ids, workers, first, serving, roles, w);
      if w < |serving| && serving[w].Some? { assert SameRun(c, d, serving[w].value); }
    }
  }

  // ---------------------------------------------------------------- notification

  function Notify(s: System, sig: Signals): System { s.(f := s.f.(signals := sig)) }

  lemma {:induction false} NotifyKeeps(s: System, sig: Signals)
    requires Inv(s)
    requires s.f.signals.latched <= sig.latched && s.f.signals.failed <= sig.failed
    ensures Inv(Notify(s, sig))
  {
    var c, was := s.f.core, s.f.signals;
    forall k: nat ensures WaiterAwake(c, sig, s.ops, k) { assert WaiterAwake(c, was, s.ops, k); }
    forall k: nat ensures CapacityAwake(c, sig, s.ops, k) { assert CapacityAwake(c, was, s.ops, k); }
    forall w: nat ensures WorkerAwake(sig, s.serving, s.roles, w) {
      assert WorkerAwake(was, s.serving, s.roles, w);
    }
  }

  // ---------------------------------------------------------------- admission

  /** A new incarnation: the slot toggles its Phase and the ledger opens a new number. */
  function Enter(s: System, work: nat): System
    requires HasCapacity(s.f.core) && |s.ids| == |s.f.core.records|
  {
    var i := FirstFree(s.f.core.records);
    var id := |s.ledger.tasks|;
    s.(f := s.f.(core := Admit(s.f.core, work)),
       ids := s.ids[i := id],
       home := s.home + [i],
       ledger := Happen(s.ledger, Admitted(work)),
       tokens := s.tokens[id := AdmittedRef(s.f.core)])
  }

  lemma {:induction false} IdsOfUpdate(ids: seq<nat>, q: seq<nat>, i: nat, id: nat)
    requires i < |ids| && i !in q
    ensures IdsOf(ids[i := id], q) == IdsOf(ids, q)
  {
    if q != [] { IdsOfUpdate(ids, q[1..], i, id); }
  }

  lemma {:induction false} IdsOfAppend(ids: seq<nat>, p: seq<nat>, q: seq<nat>)
    ensures IdsOf(ids, p + q) == IdsOf(ids, p) + IdsOf(ids, q)
  {
    if p == [] {
      assert p + q == q;
    } else {
      assert (p + q)[1..] == p[1..] + q;
      IdsOfAppend(ids, p[1..], q);
    }
  }

  lemma {:induction false} EnterTable(c: Core, ids: seq<nat>, home: seq<nat>, l: Ledger, work: nat)
    requires TableOk(c, ids, home, l) && HasCapacity(c) && |ids| == |c.records| && |home| == |l.tasks|
    ensures var i := FirstFree(c.records);
      TableOk(Admit(c, work), ids[i := |home|], home + [i], Happen(l, Admitted(work)))
  {
    var i := FirstFree(c.records);
    var d, jds, home', m := Admit(c, work), ids[i := |home|], home + [i], Happen(l, Admitted(work));
    assert home'[..|home'| - 1] == home;
    forall j: nat ensures RowOk(d, jds, home', m, j) { assert RowOk(c, ids, home, l, j); }
    forall id: nat ensures HomeOk(d, jds, home', m, id) { assert HomeOk(c, ids, home, l, id); }
  }

  lemma {:induction false} EnterQueue(c: Core, ids: seq<nat>, l: Ledger, work: nat)
    requires QueueOk(c, ids, l) && HasCapacity(c) && |ids| == |c.records|
    ensures var i := FirstFree(c.records);
      QueueOk(Admit(c, work), ids[i := |l.tasks|], Happen(l, Admitted(work)))
  {
    var i := FirstFree(c.records);
    var d := Admit(c, work);
    forall k: nat ensures QueuedOk(d, k) && (k < |c.queue| ==> c.queue[k] != i) { assert QueuedOk(c, k); }
    assert i !in c.queue;
    IdsOfUpdate(ids, c.queue, i, |l.tasks|);
    IdsOfAppend(ids[i := |l.tasks|], c.queue, [i]);
  }

  lemma {:induction false} EnterNames(c: Core, ids: seq<nat>, work: nat, id: nat)
    requires HasCapacity(c) && |ids| == |c.records|
    ensures var i := FirstFree(c.records); NamesKept(c, ids, Admit(c, work), ids[i := id])
  {
  }

  lemma {:induction false} EnterTokens(c: Core, ids: seq<nat>, work: nat, id: nat,
      tokens: map<nat, Ref>, unreturned: map<nat, nat>)
    requires HasCapacity(c) && |ids| == |c.records| && id !in tokens
    requires TokensOk(c, ids, tokens, unreturned)
    ensures TokensOk(Admit(c, work), ids[FirstFree(c.records) := id], tokens[id := AdmittedRef(c)], unreturned)
  {
    var d, jds, tokens' := Admit(c, work), ids[FirstFree(c.records) := id], tokens[id := AdmittedRef(c)];
    forall x: nat ensures TokenOk(d, jds, tokens', x) { assert TokenOk(c, ids, tokens, x); }
    forall i: nat ensures OwnerOk(d, jds, tokens', i) { assert OwnerOk(c, ids, tokens, i); }
  }

  /** A handle's Task number is in the ledger. */
  lemma {:induction false} TokenKnown(s: System, id: nat)
    requires Inv(s) && id in s.tokens
    ensures id < |s.ledger.tasks|
    ensures Names(s.f.core, s.ids, id, s.tokens[id])
    ensures s.ledger.tasks[id].body == s.f.core.records[s.tokens[id].index].body
    ensures s.ledger.tasks[id].body.owner
  {
    assert TokenOk(s.f.core, s.ids, s.tokens, id);
    assert RowOk(s.f.core, s.ids, s.home, s.ledger, s.tokens[id].index);
  }

  lemma {:induction false} EnterKeeps(s: System, work: nat)
    requires Inv(s) && HasCapacity(s.f.core)
    ensures Inv(Enter(s, work))
  {
    var c, t, id := s.f.core, Enter(s, work), |s.ledger.tasks|;
    EventKeepsGood(s.ledger, Admitted(work));
    EnterTable(c, s.ids, s.home, s.ledger, work);
    EnterQueue(c, s.ids, s.ledger, work);
    if id in s.tokens { TokenKnown(s, id); }
    EnterTokens(c, s.ids, work, id, s.tokens, s.unreturned);
    EnterNames(c, s.ids, work, id);
    WaitsFrame(c, s.ids, t.f.core, t.ids, s.f.waiters, s.tokens, t.tokens, s.unreturned, s.ops);
    forall i: nat ensures SameRun(c, t.f.core, i) { assert RowOk(c, s.ids, s.home, s.ledger, i); }
    WorkersFrame(c, s.ids, t.f.core, t.ids, s.f.workers, s.f.first, s.serving, s.roles);
    EnterWake(c, s.ids, work, s);
    WakeFrame(c, t.f.core, s.f.signals, s.ops, s.serving, s.roles);
  }

  lemma {:induction false} EnterWake(c: Core, ids: seq<nat>, work: nat, s: System)
    requires Inv(s) && HasCapacity(c) && c == s.f.core
    ensures forall k :: 0 <= k < |s.ops| && s.ops[k].Waiter? && WaitOver(Admit(c, work), s.ops[k]) ==>
      WaitOver(c, s.ops[k])
    ensures SomeFree(Admit(c, work)) ==> SomeFree(c)
  {
    forall k | 0 <= k < |s.ops| && s.ops[k].Waiter? && WaitOver(Admit(c, work), s.ops[k])
      ensures WaitOver(c, s.ops[k])
    {
      assert OpOk(c, s.ids, s.f.waiters, s.tokens, s.unreturned, s.ops, k);
    }
  }

  // ---------------------------------------------------------------- writing one body

  /** d is c with the body of slot i replaced. */
  ghost predicate Wrote(c: Core, d: Core, i: nat) {
    Live(c, i) && |d.records| == |c.records|
    && d.records == c.records[i := c.records[i].(body := d.records[i].body)]
  }

  lemma {:induction false} WroteNames(c: Core, d: Core, ids: seq<nat>, i: nat)
    requires Wrote(c, d, i)
    ensures NamesKept(c, ids, d, ids)
    ensures SomeFree(d) ==> SomeFree(c)
  {
  }

  lemma {:induction false} WroteTable(c: Core, d: Core, ids: seq<nat>, home: seq<nat>, l: Ledger, m: Ledger, i: nat)
    requires TableOk(c, ids, home, l) && |ids| == |c.records| && |home| == |l.tasks|
    requires Wrote(c, d, i) && |m.tasks| == |l.tasks|
    requires ids[i] < |l.tasks| && m.tasks[ids[i]].body == d.records[i].body
    requires forall id: nat :: id < |l.tasks| && id != ids[i] ==> m.tasks[id] == l.tasks[id]
    ensures TableOk(d, ids, home, m)
  {
    assert RowOk(c, ids, home, l, i);
    forall j: nat ensures RowOk(d, ids, home, m, j) { assert RowOk(c, ids, home, l, j); }
    forall id: nat ensures HomeOk(d, ids, home, m, id) { assert HomeOk(c, ids, home, l, id); }
  }

  lemma {:induction false} WroteQueue(c: Core, d: Core, ids: seq<nat>, l: Ledger, m: Ledger, i: nat)
    requires QueueOk(c, ids, l) && Wrote(c, d, i) && d.queue == c.queue && m.queue == l.queue
    ensures QueueOk(d, ids, m)
  {
    forall k: nat ensures QueuedOk(d, k) { assert QueuedOk(c, k); }
  }

  /** Handles are untouched when the owner bit is. */
  lemma {:induction false} WroteTokens(c: Core, d: Core, ids: seq<nat>, tokens: map<nat, Ref>,
      unreturned: map<nat, nat>, i: nat)
    requires TokensOk(c, ids, tokens, unreturned) && Wrote(c, d, i)
    requires d.records[i].body.owner == c.records[i].body.owner
    ensures TokensOk(d, ids, tokens, unreturned)
  {
    forall id: nat ensures TokenOk(d, ids, tokens, id) { assert TokenOk(c, ids, tokens, id); }
    forall j: nat ensures OwnerOk(d, ids, tokens, j) { assert OwnerOk(c, ids, tokens, j); }
  }

  /** A wait that slot i just ended is the wait of a context registered for it. */
  lemma {:induction false} WroteWake(s: System, d: Core, i: nat)
    requires Inv(s) && Wrote(s.f.core, d, i)
    requires
      || Reached(s.f.signals, Waiting(s.f.waiters, RefOf(s.f.core, i)))
      || (&& (IsTerminal(d.records[i].body) ==> IsTerminal(s.f.core.records[i].body))
          && (HasGrant(d.records[i].body) ==> HasGrant(s.f.core.records[i].body)))
    ensures WakeOk(d, s.f.signals, s.ops, s.serving, s.roles)
  {
    var c := s.f.core;
    forall k | 0 <= k < |s.ops| && s.ops[k].Waiter? && s.ops[k].parked && WaitOver(d, s.ops[k])
      ensures WaitOver(c, s.ops[k]) || k in s.f.signals.latched + s.f.signals.failed
    {
      assert OpOk(c, s.ids, s.f.waiters, s.tokens, s.unreturned, s.ops, k);
      if s.ops[k].ref.index == i {
        assert Matches(s.f.waiters, s.ops[k].slot, RefOf(c, i));
      }
    }
    WroteNames(c, d, s.ids, i);
    WakeFrame(c, d, s.f.signals, s.ops, s.serving, s.roles);
  }

  lemma {:induction false} WithoutMembers(q: seq<nat>, x: nat, k: nat)
    requires k < |Without(q, x)|
    ensures Without(q, x)[k] in q
  {
    WithoutKeeps(q, x);
    assert Without(q, x)[k] in Without(q, x);
  }

  lemma {:induction false} IdsOfWithout(ids: seq<nat>, q: seq<nat>, i: nat)
    requires i < |ids| && forall x :: x in q ==> x < |ids| && (x == i <==> ids[x] == ids[i])
    ensures IdsOf(ids, Without(q, i)) == Without(IdsOf(ids, q), ids[i])
  {
    if q != [] && q[0] != i {
      assert forall x :: x in q[1..] ==> x in q;
      IdsOfWithout(ids, q[1..], i);
    }
  }

  lemma {:induction false} UnqueueQueue(c: Core, d: Core, ids: seq<nat>, home: seq<nat>, l: Ledger, m: Ledger, i: nat)
    requires QueueOk(c, ids, l) && TableOk(c, ids, home, l) && |ids| == |c.records| && |home| == |l.tasks|
    requires Wrote(c, d, i)
    requires d.queue == Without(c.queue, i) && m.queue == Without(l.queue, ids[i])
    ensures QueueOk(d, ids, m)
  {
    forall x | x in c.queue ensures x < |ids| && (x == i <==> ids[x] == ids[i]) {
      var k :| 0 <= k < |c.queue| && c.queue[k] == x;
      assert QueuedOk(c, k);
      assert RowOk(c, ids, home, l, x) && RowOk(c, ids, home, l, i);
    }
    IdsOfWithout(ids, c.queue, i);
    forall k: nat ensures QueuedOk(d, k) {
      if k < |d.queue| {
        WithoutMembers(c.queue, i, k);
        var j :| 0 <= j < |c.queue| && c.queue[j] == d.queue[k];
        assert QueuedOk(c, j);
      }
    }
  }

  // ---------------------------------------------------------------- grants

  /** The oldest queued Task goes to Worker w. */
  function Grant(s: System, w: nat): System
    requires CanClaim(s.f.core) && IsWorker(s.f, w) && w < |s.serving| && CanHappen(s.ledger, GrantedTo(w))
  {
    s.(f := GrantNext(s.f, w),
       serving := s.serving[w := Some(s.f.core.queue[0])],
       ledger := Happen(s.ledger, GrantedTo(w)))
  }

  lemma {:induction false} HeadKnown(s: System)
    requires Inv(s) && s.f.core.queue != []
    ensures var i := s.f.core.queue[0];
      && Live(s.f.core, i)
      && s.ledger.queue != [] && s.ids[i] == s.ledger.queue[0] && s.ids[i] < |s.ledger.tasks|
      && s.ledger.tasks[s.ids[i]].body == s.f.core.records[i].body
      && s.f.core.records[i].body.state.Queued?
  {
    assert QueuedOk(s.f.core, 0);
    assert RowOk(s.f.core, s.ids, s.home, s.ledger, s.f.core.queue[0]);
    assert s.ledger.queue[0] in s.ledger.queue;
  }

  lemma {:induction false} GrantWorkers(s: System, d: Core, w: nat, i: nat)
    requires Inv(s) && IsWorker(s.f, w) && Available(s.f, w)
    requires Wrote(s.f.core, d, i) && s.f.core.records[i].body.state.Queued?
    requires d.records[i].body == GrantBody(s.f.core.records[i].body, w)
    requires s.f.core.records[i].body.payload.Callable?
    ensures WorkersOk(d, s.ids, s.f.workers[w - s.f.first := false], s.f.first,
                      s.serving[w := Some(i)], s.roles)
  {
    var c, first := s.f.core, s.f.first;
    assert WorkerOk(c, s.ids, s.f.workers, first, s.serving, s.roles, w);
    WroteNames(c, d, s.ids, i);
    var serving, workers := s.serving[w := Some(i)], s.f.workers[w - first := false];
    forall j: nat ensures RunOk(d, serving, j) { assert RunOk(c, s.serving, j); }
    forall v: nat ensures WorkerOk(d, s.ids, workers, first, serving, s.roles, v) {
      assert WorkerOk(c, s.ids, s.f.workers, first, s.serving, s.roles, v);
    }
  }

  lemma {:induction false} GrantQueue(c: Core, ids: seq<nat>, l: Ledger, d: Core, m: Ledger)
    requires QueueOk(c, ids, l) && c.queue != [] && Wrote(c, d, c.queue[0])
    requires d.queue == c.queue[1..] && m.queue == l.queue[1..]
    ensures QueueOk(d, ids, m)
  {
    forall k: nat ensures QueuedOk(d, k) { assert QueuedOk(c, k + 1); }
  }

  lemma {:induction false} GrantWake(s: System, d: Core, w: nat, i: nat)
    requires WakeOk(d, s.f.signals, s.ops, s.serving, s.roles)
    requires w < |s.serving| == |s.roles| && (s.roles[w].Parked? ==> w in s.f.signals.latched)
    ensures WakeOk(d, s.f.signals, s.ops, s.serving[w := Some(i)], s.roles)
  {
    var serving := s.serving[w := Some(i)];
    forall v: nat ensures WorkerAwake(s.f.signals, serving, s.roles, v) {
      assert WorkerAwake(s.f.signals, s.serving, s.roles, v);
    }
  }

  /** A grant is safe when the Worker is running or was woken, and the Task's waiters were told. */
  lemma {:induction false} GrantKeeps(s: System, w: nat)
    requires Inv(s) && s.f.core.queue != [] && Available(s.f, w)
    requires s.roles[w].Parked? ==> w in s.f.signals.latched
    requires s.f.core.queue[0] < |s.f.core.records|
    requires Reached(s.f.signals, Waiting(s.f.waiters, RefOf(s.f.core, s.f.core.queue[0])))
    ensures w < |s.serving| && CanHappen(s.ledger, GrantedTo(w)) && Inv(Grant(s, w))
  {
    HeadKnown(s);
    var i := s.f.core.queue[0];
    var t := Grant(s, w);
    EventKeepsGood(s.ledger, GrantedTo(w));
    assert Lifetimes(s.ledger.tasks[s.ids[i]]);
    WroteTable(s.f.core, t.f.core, s.ids, s.home, s.ledger, t.ledger, i);
    GrantQueue(s.f.core, s.ids, s.ledger, t.f.core, t.ledger);
    WroteTokens(s.f.core, t.f.core, s.ids, s.tokens, s.unreturned, i);
    WroteNames(s.f.core, t.f.core, s.ids, i);
    WaitsFrame(s.f.core, s.ids, t.f.core, s.ids, s.f.waiters, s.tokens, s.tokens, s.unreturned, s.ops);
    GrantWorkers(s, t.f.core, w, i);
    WroteWake(s, t.f.core, i);
    GrantWake(s, t.f.core, w, i);
  }

  // ---------------------------------------------------------------- cancellation

  /** Cancels the Task that ref names, as a handle does and as shutdown does. */
  function CancelNamed(s: System, id: nat, ref: Ref): System
    requires id < |s.ledger.tasks|
  {
    s.(f := s.f.(core := Cancel(s.f.core, ref)), ledger := Happen(s.ledger, CancelRequested(id)))
  }

  /** A reference that names a Task agrees with the ledger about it. */
  lemma {:induction false} NamedKnown(s: System, id: nat, ref: Ref)
    requires Inv(s) && Names(s.f.core, s.ids, id, ref)
    ensures id < |s.ledger.tasks| && s.ids[ref.index] == id && ref == RefOf(s.f.core, ref.index)
    ensures s.ledger.tasks[id].body == s.f.core.records[ref.index].body
    ensures Lifetimes(s.ledger.tasks[id])
  {
    assert RowOk(s.f.core, s.ids, s.home, s.ledger, ref.index);
  }

  lemma {:induction false} CancelKeeps(s: System, id: nat, ref: Ref)
    requires Inv(s) && Names(s.f.core, s.ids, id, ref)
    requires IsQueued(s.f.core, ref) ==> Reached(s.f.signals, Waiting(s.f.waiters, ref))
    ensures id < |s.ledger.tasks| && Inv(CancelNamed(s, id, ref))
  {
    NamedKnown(s, id, ref);
    var i, t := ref.index, CancelNamed(s, id, ref);
    EventKeepsGood(s.ledger, CancelRequested(id));
    WroteTable(s.f.core, t.f.core, s.ids, s.home, s.ledger, t.ledger, i);
    if IsQueued(s.f.core, ref) {
      UnqueueQueue(s.f.core, t.f.core, s.ids, s.home, s.ledger, t.ledger, i);
    } else {
      WroteQueue(s.f.core, t.f.core, s.ids, s.ledger, t.ledger, i);
    }
    WroteTokens(s.f.core, t.f.core, s.ids, s.tokens, s.unreturned, i);
    WroteNames(s.f.core, t.f.core, s.ids, i);
    WaitsFrame(s.f.core, s.ids, t.f.core, s.ids, s.f.waiters, s.tokens, s.tokens, s.unreturned, s.ops);
    forall j: nat ensures SameRun(s.f.core, t.f.core, j) {}
    WorkersFrame(s.f.core, s.ids, t.f.core, s.ids, s.f.workers, s.f.first, s.serving, s.roles);
    WroteWake(s, t.f.core, i);
  }

  // ---------------------------------------------------------------- giving up a handle

  function ReleaseNamed(s: System, id: nat): System
    requires id in s.tokens && CanHappen(s.ledger, OwnerReleased(id))
  {
    s.(f := s.f.(core := Release(s.f.core, s.tokens[id])),
       ledger := Happen(s.ledger, OwnerReleased(id)),
       tokens := s.tokens - {id})
  }

  function TakeNamed(s: System, id: nat): System
    requires id in s.tokens && CanHappen(s.ledger, ResultTaken(id))
  {
    s.(f := s.f.(core := Take(s.f.core, s.tokens[id])),
       ledger := Happen(s.ledger, ResultTaken(id)),
       tokens := s.tokens - {id})
  }

  /** The handle of slot i goes together with its owner bit. */
  lemma {:induction false} DisownTokens(s: System, d: Core, id: nat)
    requires Inv(s) && id in s.tokens && id !in s.unreturned
    requires Wrote(s.f.core, d, s.tokens[id].index) && !d.records[s.tokens[id].index].body.owner
    ensures TokensOk(d, s.ids, s.tokens - {id}, s.unreturned)
  {
    var c := s.f.core;
    assert TokenOk(c, s.ids, s.tokens, id);
    forall x: nat ensures TokenOk(d, s.ids, s.tokens - {id}, x) {
      assert TokenOk(c, s.ids, s.tokens, x);
      if x in s.tokens && s.tokens[x].index == s.tokens[id].index { assert x == id; }
    }
    forall j: nat ensures OwnerOk(d, s.ids, s.tokens - {id}, j) {
      assert OwnerOk(c, s.ids, s.tokens, j);
      assert RowOk(c, s.ids, s.home, s.ledger, j) && RowOk(c, s.ids, s.home, s.ledger, s.tokens[id].index);
    }
  }

  lemma {:induction false} ReleaseKeeps(s: System, id: nat)
    requires Inv(s) && id in s.tokens && id !in s.unreturned
    requires IsQueued(s.f.core, s.tokens[id]) ==> Reached(s.f.signals, Waiting(s.f.waiters, s.tokens[id]))
    ensures CanHappen(s.ledger, OwnerReleased(id)) && Inv(ReleaseNamed(s, id))
  {
    TokenKnown(s, id);
    var ref := s.tokens[id];
    NamedKnown(s, id, ref);
    var i, t := ref.index, ReleaseNamed(s, id);
    EventKeepsGood(s.ledger, OwnerReleased(id));
    WroteTable(s.f.core, t.f.core, s.ids, s.home, s.ledger, t.ledger, i);
    if IsQueued(s.f.core, ref) {
      UnqueueQueue(s.f.core, t.f.core, s.ids, s.home, s.ledger, t.ledger, i);
    } else {
      WroteQueue(s.f.core, t.f.core, s.ids, s.ledger, t.ledger, i);
    }
    DisownTokens(s, t.f.core, id);
    WroteNames(s.f.core, t.f.core, s.ids, i);
    WaitsFrame(s.f.core, s.ids, t.f.core, s.ids, s.f.waiters, s.tokens, t.tokens, s.unreturned, s.ops);
    forall j: nat ensures SameRun(s.f.core, t.f.core, j) {}
    WorkersFrame(s.f.core, s.ids, t.f.core, s.ids, s.f.workers, s.f.first, s.serving, s.roles);
    WroteWake(s, t.f.core, i);
  }

  lemma {:induction false} TakeKeeps(s: System, id: nat)
    requires Inv(s) && id in s.tokens && id !in s.unreturned && IsCompleted(s.f.core, s.tokens[id])
    ensures CanHappen(s.ledger, ResultTaken(id)) && Inv(TakeNamed(s, id))
  {
    TokenKnown(s, id);
    var ref := s.tokens[id];
    NamedKnown(s, id, ref);
    var i, t := ref.index, TakeNamed(s, id);
    EventKeepsGood(s.ledger, ResultTaken(id));
    WroteTable(s.f.core, t.f.core, s.ids, s.home, s.ledger, t.ledger, i);
    WroteQueue(s.f.core, t.f.core, s.ids, s.ledger, t.ledger, i);
    DisownTokens(s, t.f.core, id);
    WroteNames(s.f.core, t.f.core, s.ids, i);
    WaitsFrame(s.f.core, s.ids, t.f.core, s.ids, s.f.waiters, s.tokens, t.tokens, s.unreturned, s.ops);
    forall j: nat ensures SameRun(s.f.core, t.f.core, j) {}
    WorkersFrame(s.f.core, s.ids, t.f.core, s.ids, s.f.workers, s.f.first, s.serving, s.roles);
    WroteWake(s, t.f.core, i);
  }

  // ---------------------------------------------------------------- reclamation

  function Recycle(s: System, ref: Ref): System { s.(f := ReclaimIfQuiescent(s.f, ref)) }

  /** Nothing refers to a record that is about to be reclaimed. */
  lemma {:induction false} RecycleFree(s: System, ref: Ref, k: nat)
    requires Inv(s) && Reclaimable(s.f, ref) && k < |s.ops|
    ensures s.ops[k].Waiter? ==> s.ops[k].ref.index != ref.index
    ensures s.ops[k].Entering? ==> s.ops[k].ref.index != ref.index
    ensures s.serving[k] != Some(ref.index)
  {
    assert OpOk(s.f.core, s.ids, s.f.waiters, s.tokens, s.unreturned, s.ops, k);
    assert WorkerOk(s.f.core, s.ids, s.f.workers, s.f.first, s.serving, s.roles, k);
    if s.ops[k].Waiter? && s.ops[k].ref.index == ref.index {
      assert Matches(s.f.waiters, s.ops[k].slot, ref);
    }
    if s.ops[k].Entering? { assert TokenOk(s.f.core, s.ids, s.tokens, s.ops[k].id); }
  }

  lemma {:induction false} RecycleTable(s: System, ref: Ref)
    requires Inv(s) && Reclaimable(s.f, ref)
    ensures TableOk(Reclaim(s.f.core, ref), s.ids, s.home, s.ledger)
  {
    var c, d := s.f.core, Reclaim(s.f.core, ref);
    forall j: nat ensures RowOk(d, s.ids, s.home, s.ledger, j) { assert RowOk(c, s.ids, s.home, s.ledger, j); }
    forall id: nat ensures HomeOk(d, s.ids, s.home, s.ledger, id) {
      assert HomeOk(c, s.ids, s.home, s.ledger, id);
      assert RowOk(c, s.ids, s.home, s.ledger, ref.index);
      if id < |s.ledger.tasks| { assert Lifetimes(s.ledger.tasks[id]); }
    }
  }

  lemma {:induction false} IdsOfAt(ids: seq<nat>, q: seq<nat>, k: nat)
    requires k < |q|
    ensures k < |IdsOf(ids, q)| && IdsOf(ids, q)[k] == IdAt(ids, q[k])
  {
    if k > 0 { IdsOfAt(ids, q[1..], k - 1); }
  }

  /** The k-th queued slot holds a Queued Task. */
  lemma {:induction false} QueuedKnown(s: System, k: nat)
    requires Inv(s) && k < |s.f.core.queue|
    ensures Live(s.f.core, s.f.core.queue[k]) && s.f.core.records[s.f.core.queue[k]].body.state.Queued?
  {
    var i := s.f.core.queue[k];
    assert QueuedOk(s.f.core, k);
    assert RowOk(s.f.core, s.ids, s.home, s.ledger, i);
    IdsOfAt(s.ids, s.f.core.queue, k);
    assert s.ids[i] in s.ledger.queue;
  }

  lemma {:induction false} RecycleTokens(s: System, ref: Ref)
    requires Inv(s) && Reclaimable(s.f, ref)
    ensures TokensOk(Reclaim(s.f.core, ref), s.ids, s.tokens, s.unreturned)
  {
    var c, d := s.f.core, Reclaim(s.f.core, ref);
    forall id: nat ensures TokenOk(d, s.ids, s.tokens, id) { assert TokenOk(c, s.ids, s.tokens, id); }
    forall j: nat ensures OwnerOk(d, s.ids, s.tokens, j) { assert OwnerOk(c, s.ids, s.tokens, j); }
  }

  lemma {:induction false} RecycleWaits(s: System, ref: Ref)
    requires Inv(s) && Reclaimable(s.f, ref)
    ensures WaitsOk(Reclaim(s.f.core, ref), s.ids, s.f.waiters, s.tokens, s.unreturned, s.ops)
  {
    var d := Reclaim(s.f.core, ref);
    forall k: nat ensures OpOk(d, s.ids, s.f.waiters, s.tokens, s.unreturned, s.ops, k) {
      assert OpOk(s.f.core, s.ids, s.f.waiters, s.tokens, s.unreturned, s.ops, k);
      if k < |s.ops| { RecycleFree(s, ref, k); }
    }
  }

  lemma {:induction false} RecycleWorkers(s: System, ref: Ref)
    requires Inv(s) && Reclaimable(s.f, ref)
    ensures WorkersOk(Reclaim(s.f.core, ref), s.ids, s.f.workers, s.f.first, s.serving, s.roles)
  {
    var d := Reclaim(s.f.core, ref);
    forall i: nat ensures RunOk(d, s.serving, i) { assert RunOk(s.f.core, s.serving, i); }
    forall w: nat ensures WorkerOk(d, s.ids, s.f.workers, s.f.first, s.serving, s.roles, w) {
      assert WorkerOk(s.f.core, s.ids, s.f.workers, s.f.first, s.serving, s.roles, w);
      if w < |s.ops| { RecycleFree(s, ref, w); }
    }
  }

  lemma {:induction false} RecycleWake(s: System, ref: Ref)
    requires Inv(s) && Reclaimable(s.f, ref)
    requires Reached(s.f.signals, Waiting(s.f.admission, ()))
    ensures WakeOk(Reclaim(s.f.core, ref), s.f.signals, s.ops, s.serving, s.roles)
  {
    var c, d, sig := s.f.core, Reclaim(s.f.core, ref), s.f.signals;
    forall k: nat ensures WaiterAwake(d, sig, s.ops, k) {
      assert WaiterAwake(c, sig, s.ops, k);
      if k < |s.ops| { RecycleFree(s, ref, k); }
    }
    forall k: nat ensures CapacityAwake(d, sig, s.ops, k) {
      assert CapacityOpOk(s.f.admission, s.ops, k);
      if k < |s.ops| && s.ops[k].AwaitingCapacity? {
        assert Matches(s.f.admission, s.ops[k].slot, ());
      }
    }
  }

  lemma {:induction false} RecycleKeeps(s: System, ref: Ref)
    requires Inv(s) && ReclaimReached(s.f, ref, s.f.signals)
    ensures Inv(Recycle(s, ref))
  {
    if Reclaimable(s.f, ref) {
      RecycleTable(s, ref);
      forall k: nat ensures QueuedOk(Reclaim(s.f.core, ref), k) {
        if k < |s.f.core.queue| { QueuedKnown(s, k); }
      }
      RecycleTokens(s, ref);
      RecycleWaits(s, ref);
      RecycleWorkers(s, ref);
      RecycleWake(s, ref);
    }
  }

  // ---------------------------------------------------------------- waiting

  /** Registers context c in the first inactive slot and lets it go to its signal. */
  function RegisterFor(s: System, c: nat, kind: WaitKind, id: nat, ref: Ref): System
    requires c < |s.ops|
  {
    s.(f := s.f.(waiters := Register(s.f.waiters, ref, c)),
       ops := s.ops[c := Waiter(kind, id, ref, FirstInactive(s.f.waiters), true)])
  }

  lemma {:induction false} RegisterKeeps(s: System, c: nat, kind: WaitKind, id: nat, ref: Ref)
    requires Inv(s) && c < |s.ops| && FirstInactive(s.f.waiters) < |s.f.waiters|
    requires s.roles[c].NotWorker? || s.roles[c].Invoking?
    requires kind.ForTerminal? ==> s.ops[c].Idle? && Names(s.f.core, s.ids, id, ref) && id !in s.unreturned
    requires kind.ForGrant? ==> s.ops[c] == Entering(id, ref)
    requires !WaitOver(s.f.core, Waiter(kind, id, ref, 0, true))
    ensures Inv(RegisterFor(s, c, kind, id, ref))
  {
    var t, core := RegisterFor(s, c, kind, id, ref), s.f.core;
    assert OpOk(core, s.ids, s.f.waiters, s.tokens, s.unreturned, s.ops, c);
    if kind.ForGrant? { assert TokenOk(core, s.ids, s.tokens, id); }
    forall k: nat ensures OpOk(core, s.ids, t.f.waiters, s.tokens, s.unreturned, t.ops, k) {
      assert OpOk(core, s.ids, s.f.waiters, s.tokens, s.unreturned, s.ops, k);
    }
    forall j: nat ensures SlotOk(t.f.waiters, t.ops, j) { assert SlotOk(s.f.waiters, s.ops, j); }
    forall k: nat ensures CapacityOpOk(s.f.admission, t.ops, k) { assert CapacityOpOk(s.f.admission, s.ops, k); }
    forall j: nat ensures CapacitySlotOk(s.f.admission, t.ops, j) { assert CapacitySlotOk(s.f.admission, s.ops, j); }
    forall k: nat ensures CallerOk(t.ops, s.roles, k) { assert CallerOk(s.ops, s.roles, k); }
    OpsWake(s, t.ops, c);
  }

  /** Changing only context c's program counter, to one whose wait is not over. */
  lemma {:induction false} OpsWake(s: System, ops: seq<Op>, c: nat)
    requires WakeOk(s.f.core, s.f.signals, s.ops, s.serving, s.roles)
    requires c < |s.ops| && |ops| == |s.ops| && forall k :: 0 <= k < |ops| && k != c ==> ops[k] == s.ops[k]
    requires ops[c].Waiter? && ops[c].parked ==> !WaitOver(s.f.core, ops[c])
    requires ops[c].AwaitingCapacity? && ops[c].parked ==> !SomeFree(s.f.core)
    ensures WakeOk(s.f.core, s.f.signals, ops, s.serving, s.roles)
  {
    forall k: nat ensures WaiterAwake(s.f.core, s.f.signals, ops, k) {
      assert WaiterAwake(s.f.core, s.f.signals, s.ops, k);
    }
    forall k: nat ensures CapacityAwake(s.f.core, s.f.signals, ops, k) {
      assert CapacityAwake(s.f.core, s.f.signals, s.ops, k);
    }
  }

  /** Changing only whether context c is parked. */
  function SetParked(s: System, c: nat, parked: bool): System
    requires c < |s.ops| && (s.ops[c].Waiter? || s.ops[c].AwaitingCapacity?)
  {
    s.(ops := s.ops[c := s.ops[c].(parked := parked)])
  }

  lemma {:induction false} SetParkedKeeps(s: System, c: nat, parked: bool)
    requires Inv(s) && c < |s.ops| && (s.ops[c].Waiter? || s.ops[c].AwaitingCapacity?)
    requires parked && s.ops[c].Waiter? ==> !WaitOver(s.f.core, s.ops[c])
    requires parked && s.ops[c].AwaitingCapacity? ==> !SomeFree(s.f.core)
    ensures Inv(SetParked(s, c, parked))
  {
    var t, core := SetParked(s, c, parked), s.f.core;
    forall k: nat ensures OpOk(core, s.ids, s.f.waiters, s.tokens, s.unreturned, t.ops, k) {
      assert OpOk(core, s.ids, s.f.waiters, s.tokens, s.unreturned, s.ops, k);
    }
    forall j: nat ensures SlotOk(s.f.waiters, t.ops, j) { assert SlotOk(s.f.waiters, s.ops, j); }
    forall k: nat ensures CapacityOpOk(s.f.admission, t.ops, k) { assert CapacityOpOk(s.f.admission, s.ops, k); }
    forall j: nat ensures CapacitySlotOk(s.f.admission, t.ops, j) { assert CapacitySlotOk(s.f.admission, s.ops, j); }
    forall k: nat ensures CallerOk(t.ops, s.roles, k) { assert CallerOk(s.ops, s.roles, k); }
    OpsWake(s, t.ops, c);
  }

  /** Consumes context c's latched signal. */
  function Consume(s: System, c: nat): System {
    s.(f := s.f.(signals := s.f.signals.(latched := s.f.signals.latched - {c})), clear := s.clear - {c})
  }

  lemma {:induction false} ConsumeKeeps(s: System, c: nat)
    requires Inv(s) && c < |s.ops|
    requires !(s.ops[c].Waiter? && s.ops[c].parked) && !(s.ops[c].AwaitingCapacity? && s.ops[c].parked)
    requires !s.roles[c].Parked?
    ensures Inv(Consume(s, c))
  {
    var sig := Consume(s, c).f.signals;
    forall k: nat ensures WaiterAwake(s.f.core, sig, s.ops, k) {
      assert WaiterAwake(s.f.core, s.f.signals, s.ops, k);
    }
    forall k: nat ensures CapacityAwake(s.f.core, sig, s.ops, k) {
      assert CapacityAwake(s.f.core, s.f.signals, s.ops, k);
    }
    forall w: nat ensures WorkerAwake(sig, s.serving, s.roles, w) {
      assert WorkerAwake(s.f.signals, s.serving, s.roles, w);
    }
  }

  function IdOf(op: Op): nat { if op.Entering? || op.Waiter? then op.id else 0 }

  /** Context c ends its wait: its registration goes, and a dispatch call returns. */
  function Depart(s: System, c: nat): System
    requires c < |s.ops|
  {
    s.(f := s.f.(waiters := if s.ops[c].Waiter? then Unregister(s.f.waiters, s.ops[c].slot) else s.f.waiters),
       unreturned := if s.ops[c].Entering? || (s.ops[c].Waiter? && s.ops[c].kind.ForGrant?)
                     then s.unreturned - {IdOf(s.ops[c])} else s.unreturned,
       ops := s.ops[c := Idle])
  }

  lemma {:induction false} DepartWaits(s: System, c: nat)
    requires Inv(s) && c < |s.ops| && (s.ops[c].Waiter? || s.ops[c].Entering?)
    ensures var t := Depart(s, c);
      WaitsOk(s.f.core, s.ids, t.f.waiters, s.tokens, t.unreturned, t.ops)
  {
    var t, core := Depart(s, c), s.f.core;
    assert OpOk(core, s.ids, s.f.waiters, s.tokens, s.unreturned, s.ops, c);
    forall k: nat ensures OpOk(core, s.ids, t.f.waiters, s.tokens, t.unreturned, t.ops, k) {
      assert OpOk(core, s.ids, s.f.waiters, s.tokens, s.unreturned, s.ops, k);
    }
    forall j: nat ensures SlotOk(t.f.waiters, t.ops, j) { assert SlotOk(s.f.waiters, s.ops, j); }
  }

  lemma {:induction false} DepartKeeps(s: System, c: nat)
    requires Inv(s) && c < |s.ops| && (s.ops[c].Waiter? || s.ops[c].Entering?)
    ensures Inv(Depart(s, c))
  {
    var t := Depart(s, c);
    DepartWaits(s, c);
    forall k: nat ensures CapacityOpOk(s.f.admission, t.ops, k) { assert CapacityOpOk(s.f.admission, s.ops, k); }
    forall j: nat ensures CapacitySlotOk(s.f.admission, t.ops, j) { assert CapacitySlotOk(s.f.admission, s.ops, j); }
    forall k: nat ensures CallerOk(t.ops, s.roles, k) { assert CallerOk(s.ops, s.roles, k); }
    OpsWake(s, t.ops, c);
  }

  /** A dispatch call that must still wait for a Worker keeps its Task to itself. */
  function BeginWaiting(s: System, c: nat, id: nat): System
    requires c < |s.ops| && id in s.tokens
  {
    s.(ops := s.ops[c := Entering(id, s.tokens[id])], unreturned := s.unreturned[id := c])
  }

  lemma {:induction false} BeginWaitingKeeps(s: System, c: nat, id: nat)
    requires Inv(s) && c < |s.ops| && s.ops[c].Idle? && id in s.tokens && id !in s.unreturned
    requires s.roles[c].NotWorker? || s.roles[c].Invoking?
    requires forall k :: 0 <= k < |s.ops| && s.ops[k].Waiter? ==> s.ops[k].id != id
    ensures Inv(BeginWaiting(s, c, id))
  {
    var t, core := BeginWaiting(s, c, id), s.f.core;
    forall k: nat ensures OpOk(core, s.ids, s.f.waiters, s.tokens, t.unreturned, t.ops, k) {
      assert OpOk(core, s.ids, s.f.waiters, s.tokens, s.unreturned, s.ops, k);
    }
    forall j: nat ensures SlotOk(s.f.waiters, t.ops, j) { assert SlotOk(s.f.waiters, s.ops, j); }
    forall k: nat ensures CapacityOpOk(s.f.admission, t.ops, k) { assert CapacityOpOk(s.f.admission, s.ops, k); }
    forall j: nat ensures CapacitySlotOk(s.f.admission, t.ops, j) { assert CapacitySlotOk(s.f.admission, s.ops, j); }
    forall k: nat ensures CallerOk(t.ops, s.roles, k) { assert CallerOk(s.ops, s.roles, k); }
    OpsWake(s, t.ops, c);
  }

  function RegisterCapacity(s: System, c: nat): System
    requires c < |s.ops|
  {
    s.(f := s.f.(admission := Register(s.f.admission, (), c)),
       ops := s.ops[c := AwaitingCapacity(FirstInactive(s.f.admission), true)])
  }

  lemma {:induction false} RegisterCapacityKeeps(s: System, c: nat)
    requires Inv(s) && c < |s.ops| && s.ops[c].Idle? && FirstInactive(s.f.admission) < |s.f.admission|
    requires s.roles[c].NotWorker? || s.roles[c].Invoking?
    requires !SomeFree(s.f.core)
    ensures Inv(RegisterCapacity(s, c))
  {
    var t, core := RegisterCapacity(s, c), s.f.core;
    forall k: nat ensures OpOk(core, s.ids, s.f.waiters, s.tokens, s.unreturned, t.ops, k) {
      assert OpOk(core, s.ids, s.f.waiters, s.tokens, s.unreturned, s.ops, k);
    }
    forall j: nat ensures SlotOk(s.f.waiters, t.ops, j) { assert SlotOk(s.f.waiters, s.ops, j); }
    forall k: nat ensures CapacityOpOk(t.f.admission, t.ops, k) { assert CapacityOpOk(s.f.admission, s.ops, k); }
    forall j: nat ensures CapacitySlotOk(t.f.admission, t.ops, j) { assert CapacitySlotOk(s.f.admission, s.ops, j); }
    forall k: nat ensures CallerOk(t.ops, s.roles, k) { assert CallerOk(s.ops, s.roles, k); }
    OpsWake(s, t.ops, c);
  }

  function DepartCapacity(s: System, c: nat): System
    requires c < |s.ops| && s.ops[c].AwaitingCapacity?
  {
    s.(f := s.f.(admission := Unregister(s.f.admission, s.ops[c].slot)), ops := s.ops[c := Idle])
  }

  lemma {:induction false} DepartCapacityKeeps(s: System, c: nat)
    requires Inv(s) && c < |s.ops| && s.ops[c].AwaitingCapacity?
    ensures Inv(DepartCapacity(s, c))
  {
    var t, core := DepartCapacity(s, c), s.f.core;
    assert CapacityOpOk(s.f.admission, s.ops, c);
    forall k: nat ensures OpOk(core, s.ids, s.f.waiters, s.tokens, s.unreturned, t.ops, k) {
      assert OpOk(core, s.ids, s.f.waiters, s.tokens, s.unreturned, s.ops, k);
    }
    forall j: nat ensures SlotOk(s.f.waiters, t.ops, j) { assert SlotOk(s.f.waiters, s.ops, j); }
    forall k: nat ensures CapacityOpOk(t.f.admission, t.ops, k) { assert CapacityOpOk(s.f.admission, s.ops, k); }
    forall j: nat ensures CapacitySlotOk(t.f.admission, t.ops, j) { assert CapacitySlotOk(s.f.admission, s.ops, j); }
    forall k: nat ensures CallerOk(t.ops, s.roles, k) { assert CallerOk(s.ops, s.roles, k); }
    OpsWake(s, t.ops, c);
  }

  // ---------------------------------------------------------------- Worker trampolines

  function SetRole(s: System, w: nat, role: Role): System
    requires w < |s.roles|
  {
    s.(roles := s.roles[w := role])
  }

  /** A trampoline may change its counter when the record it serves allows the new one. */
  lemma {:induction false} SetRoleKeeps(s: System, w: nat, role: Role)
    requires Inv(s) && IsWorker(s.f, w) && w < |s.roles| && s.ops[w].Idle?
    requires RoleOk(s.f.core, s.ids, s.f.workers[w - s.f.first], s.serving[w], role, w)
    requires role.Parked? && s.serving[w].Some? ==> w in s.f.signals.latched
    ensures Inv(SetRole(s, w, role))
  {
    var roles := s.roles[w := role];
    forall v: nat ensures WorkerOk(s.f.core, s.ids, s.f.workers, s.f.first, s.serving, roles, v) {
      assert WorkerOk(s.f.core, s.ids, s.f.workers, s.f.first, s.serving, s.roles, v);
    }
    forall k: nat ensures CallerOk(s.ops, roles, k) { assert CallerOk(s.ops, s.roles, k); }
    forall v: nat ensures WorkerAwake(s.f.signals, s.serving, roles, v) {
      assert WorkerAwake(s.f.signals, s.serving, s.roles, v);
    }
  }

  /** Worker w enters the available set. */
  function List(s: System, w: nat): System
    requires IsWorker(s.f, w) && w < |s.roles|
  {
    s.(f := MarkAvailable(s.f, w), roles := s.roles[w := Looking])
  }

  lemma {:induction false} ListKeeps(s: System, w: nat)
    requires Inv(s) && IsWorker(s.f, w) && w < |s.roles| && s.roles[w].Unlisted? && s.ops[w].Idle?
    ensures Inv(List(s, w))
  {
    var t := List(s, w);
    assert WorkerOk(s.f.core, s.ids, s.f.workers, s.f.first, s.serving, s.roles, w);
    forall v: nat ensures WorkerOk(s.f.core, s.ids, t.f.workers, s.f.first, s.serving, t.roles, v) {
      assert WorkerOk(s.f.core, s.ids, s.f.workers, s.f.first, s.serving, s.roles, v);
    }
    forall k: nat ensures CallerOk(s.ops, t.roles, k) { assert CallerOk(s.ops, s.roles, k); }
    forall v: nat ensures WorkerAwake(s.f.signals, s.serving, t.roles, v) {
      assert WorkerAwake(s.f.signals, s.serving, s.roles, v);
    }
  }

  /** Outside every lock the Worker runs the callable and leaves a result or nothing behind. */
  function Return(s: System, w: nat, outcome: InvocationOutcome, value: nat): System
    requires w < |s.roles| && s.roles[w].Invoking? && s.roles[w].ref.index < |s.f.core.records|
    requires CanHappen(s.ledger, Invoked(s.roles[w].id, outcome, value))
  {
    s.(f := s.f.(core := Invoke(s.f.core, s.roles[w].ref, outcome, value)),
       ledger := Happen(s.ledger, Invoked(s.roles[w].id, outcome, value)),
       roles := s.roles[w := Returned(s.roles[w].id, s.roles[w].ref, outcome)])
  }

  lemma {:induction false} InvokingKnown(s: System, w: nat)
    requires Inv(s) && w < |s.roles| && (s.roles[w].Invoking? || s.roles[w].Returned?)
    ensures var id, ref := s.roles[w].id, s.roles[w].ref;
      && IsWorker(s.f, w) && Names(s.f.core, s.ids, id, ref) && s.serving[w] == Some(ref.index)
      && IsRunning(s.f.core.records[ref.index].body)
      && s.f.core.records[ref.index].body.grant == Some(w)
      && (s.roles[w].Invoking? ==> s.f.core.records[ref.index].body.payload.Callable?)
      && id < |s.ledger.tasks| && s.ledger.tasks[id].body == s.f.core.records[ref.index].body
      && s.ids[ref.index] == id && Lifetimes(s.ledger.tasks[id])
  {
    assert WorkerOk(s.f.core, s.ids, s.f.workers, s.f.first, s.serving, s.roles, w);
    NamedKnown(s, s.roles[w].id, s.roles[w].ref);
  }

  lemma {:induction false} ReturnWorkers(s: System, d: Core, w: nat, outcome: InvocationOutcome, value: nat)
    requires Inv(s) && w < |s.roles| && s.roles[w].Invoking?
    requires s.roles[w].ref.index < |s.f.core.records| && d == Invoke(s.f.core, s.roles[w].ref, outcome, value)
    ensures WorkersOk(d, s.ids, s.f.workers, s.f.first, s.serving,
                      s.roles[w := Returned(s.roles[w].id, s.roles[w].ref, outcome)])
  {
    var roles := s.roles[w := Returned(s.roles[w].id, s.roles[w].ref, outcome)];
    InvokingKnown(s, w);
    WroteNames(s.f.core, d, s.ids, s.roles[w].ref.index);
    forall i: nat ensures RunOk(d, s.serving, i) { assert RunOk(s.f.core, s.serving, i); }
    forall v: nat ensures WorkerOk(d, s.ids, s.f.workers, s.f.first, s.serving, roles, v) {
      assert WorkerOk(s.f.core, s.ids, s.f.workers, s.f.first, s.serving, s.roles, v);
    }
  }

  lemma {:induction false} ReturnKeeps(s: System, w: nat, outcome: InvocationOutcome, value: nat)
    requires Inv(s) && w < |s.roles| && s.roles[w].Invoking? && s.ops[w].Idle?
    ensures s.roles[w].ref.index < |s.f.core.records|
    ensures CanHappen(s.ledger, Invoked(s.roles[w].id, outcome, value))
    ensures Inv(Return(s, w, outcome, value))
  {
    InvokingKnown(s, w);
    var t, i := Return(s, w, outcome, value), s.roles[w].ref.index;
    EventKeepsGood(s.ledger, Invoked(s.roles[w].id, outcome, value));
    WroteTable(s.f.core, t.f.core, s.ids, s.home, s.ledger, t.ledger, i);
    WroteQueue(s.f.core, t.f.core, s.ids, s.ledger, t.ledger, i);
    WroteTokens(s.f.core, t.f.core, s.ids, s.tokens, s.unreturned, i);
    WroteNames(s.f.core, t.f.core, s.ids, i);
    WaitsFrame(s.f.core, s.ids, t.f.core, s.ids, s.f.waiters, s.tokens, s.tokens, s.unreturned, s.ops);
    ReturnWorkers(s, t.f.core, w, outcome, value);
    WroteWake(s, t.f.core, i);
    RolesSettle(s, t.f.core, t.roles, s.serving, w);
  }

  /** A trampoline counter that is not Parked imposes no wake-up, and an idle context no caller. */
  lemma {:induction false} RolesSettle(s: System, d: Core, roles: seq<Role>, serving: seq<Option<nat>>, w: nat)
    requires CallersOk(s.ops, s.roles) && WakeOk(d, s.f.signals, s.ops, s.serving, s.roles)
    requires w < |s.roles| == |s.ops| == |s.serving| == |serving| && s.ops[w].Idle? && |roles| == |s.roles|
    requires !roles[w].Parked?
    requires forall v :: 0 <= v < |roles| && v != w ==> roles[v] == s.roles[v] && serving[v] == s.serving[v]
    ensures CallersOk(s.ops, roles) && WakeOk(d, s.f.signals, s.ops, serving, roles)
  {
    forall k: nat ensures CallerOk(s.ops, roles, k) { assert CallerOk(s.ops, s.roles, k); }
    forall v: nat ensures WorkerAwake(s.f.signals, serving, roles, v) {
      assert WorkerAwake(s.f.signals, s.serving, s.roles, v);
    }
  }

  /** The Worker publishes the outcome; it serves nothing until it is listed again. */
  function Post(s: System, w: nat): System
    requires w < |s.roles| == |s.serving| && s.roles[w].Returned?
    requires CanHappen(s.ledger, Published(s.roles[w].id, s.roles[w].outcome))
  {
    s.(f := s.f.(core := Publish(s.f.core, s.roles[w].ref, s.roles[w].outcome)),
       ledger := Happen(s.ledger, Published(s.roles[w].id, s.roles[w].outcome)),
       serving := s.serving[w := None],
       roles := s.roles[w := Unlisted])
  }

  lemma {:induction false} PostWorkers(s: System, d: Core, w: nat)
    requires Inv(s) && w < |s.roles| && s.roles[w].Returned?
    requires d == Publish(s.f.core, s.roles[w].ref, s.roles[w].outcome)
    ensures WorkersOk(d, s.ids, s.f.workers, s.f.first, s.serving[w := None], s.roles[w := Unlisted])
  {
    var roles, serving := s.roles[w := Unlisted], s.serving[w := None];
    InvokingKnown(s, w);
    WroteNames(s.f.core, d, s.ids, s.roles[w].ref.index);
    forall i: nat ensures RunOk(d, serving, i) { assert RunOk(s.f.core, s.serving, i); }
    forall v: nat ensures WorkerOk(d, s.ids, s.f.workers, s.f.first, serving, roles, v) {
      assert WorkerOk(s.f.core, s.ids, s.f.workers, s.f.first, s.serving, s.roles, v);
    }
  }

  lemma {:induction false} PostKeeps(s: System, w: nat)
    requires Inv(s) && w < |s.roles| && s.roles[w].Returned? && s.ops[w].Idle?
    requires Reached(s.f.signals, Waiting(s.f.waiters, s.roles[w].ref))
    ensures CanHappen(s.ledger, Published(s.roles[w].id, s.roles[w].outcome))
    ensures Inv(Post(s, w))
  {
    InvokingKnown(s, w);
    assert WorkerOk(s.f.core, s.ids, s.f.workers, s.f.first, s.serving, s.roles, w);
    var t, i := Post(s, w), s.roles[w].ref.index;
    EventKeepsGood(s.ledger, Published(s.roles[w].id, s.roles[w].outcome));
    WroteTable(s.f.core, t.f.core, s.ids, s.home, s.ledger, t.ledger, i);
    WroteQueue(s.f.core, t.f.core, s.ids, s.ledger, t.ledger, i);
    WroteTokens(s.f.core, t.f.core, s.ids, s.tokens, s.unreturned, i);
    WroteNames(s.f.core, t.f.core, s.ids, i);
    WaitsFrame(s.f.core, s.ids, t.f.core, s.ids, s.f.waiters, s.tokens, s.tokens, s.unreturned, s.ops);
    PostWorkers(s, t.f.core, w);
    WroteWake(s, t.f.core, i);
    RolesSettle(s, t.f.core, t.roles, t.serving, w);
  }
}
