/** The facility a caller would like to see: Tasks are numbered by admission and a number is never
    used twice, so there are no slots, no Phases, no waiters and no reclamation.  Every Task keeps
    a log of what happened to its callable and its result. */
module TaskLedger {
  import opened Registrations
  import opened TaskModel

  /** invokedBy lists the Worker contexts that ran the callable, in order. */
  datatype Log = Log(callableEnds: nat, resultStarts: nat, resultEnds: nat, invokedBy: seq<nat>)

  /** What has happened to a Task, as it happened: the callable that was dispatched, the Worker it was
      granted to, whether somebody asked it to stop, gave its handle up or took its result, how its callable
      returned and with which result, and whether that was published. */
  datatype History = History(
    work: nat,
    grantedTo: Option<nat>,
    asked: bool,
    released: bool,
    taken: bool,
    returned: Option<InvocationOutcome>,
    produced: Option<nat>,
    published: bool)

  datatype Entry = Entry(body: Body, log: Log, past: History)

  datatype Ledger = Ledger(tasks: seq<Entry>, queue: seq<nat>, granted: seq<nat>)

  const NO_TASKS := Ledger([], [], [])

  datatype Event =
    | Admitted(work: nat)
    | GrantedTo(w: nat)
    | CancelRequested(id: nat)
    | OwnerReleased(id: nat)
    | ResultTaken(id: nat)
    | Invoked(id: nat, outcome: InvocationOutcome, value: nat)
    | Published(id: nat, outcome: InvocationOutcome)

  /** Counts the object lifetimes that begin or end when the buffer goes from p to q. */
  function Account(log: Log, p: Payload, q: Payload): Log {
    log.(callableEnds := log.callableEnds + (if p.Callable? && !q.Callable? then 1 else 0),
         resultStarts := log.resultStarts + (if !p.Result? && q.Result? then 1 else 0),
         resultEnds := log.resultEnds + (if p.Result? && !q.Result? then 1 else 0))
  }

  function Note(e: Entry, b: Body): Entry { Entry(b, Account(e.log, e.body.payload, b.payload), e.past) }

  function Record(l: Ledger, id: nat, past: History): Ledger
    requires id < |l.tasks|
  {
    l.(tasks := l.tasks[id := l.tasks[id].(past := past)])
  }

  function Write(l: Ledger, id: nat, b: Body): Ledger
    requires id < |l.tasks|
  {
    l.(tasks := l.tasks[id := Note(l.tasks[id], b)])
  }

  function Leave(l: Ledger, id: nat): Ledger
    requires id < |l.tasks|
  {
    if l.tasks[id].body.state.Queued? then l.(queue := Without(l.queue, id)) else l
  }

  predicate CanHappen(l: Ledger, e: Event) {
    match e
    case Admitted(_) => true
    case GrantedTo(_) => l.queue != [] && l.queue[0] < |l.tasks|
    case CancelRequested(id) => id < |l.tasks|
    case OwnerReleased(id) => id < |l.tasks| && l.tasks[id].body.owner
    case ResultTaken(id) => id < |l.tasks| && l.tasks[id].body.owner && l.tasks[id].body.state.Completed?
    case Invoked(id, _, _) =>
      && id < |l.tasks| && IsRunning(l.tasks[id].body)
      && l.tasks[id].body.payload.Callable? && l.tasks[id].body.grant.Some?
    case Published(id, outcome) =>
      && id < |l.tasks| && IsRunning(l.tasks[id].body) && l.tasks[id].log.invokedBy != []
      && (outcome.Finished? <==> l.tasks[id].body.payload.Result?)
  }

  function Happen(l: Ledger, e: Event): Ledger
    requires CanHappen(l, e)
  {
    match e
    case Admitted(work) =>
      l.(tasks := l.tasks + [Entry(FreshBody(work), Log(0, 0, 0, []), NewHistory(work))],
         queue := l.queue + [|l.tasks|])
    case GrantedTo(w) =>
      var id := l.queue[0];
      var m := Write(l, id, GrantBody(l.tasks[id].body, w)).(queue := l.queue[1..], granted := l.granted + [id]);
      Record(m, id, l.tasks[id].past.(grantedTo := Some(w)))
    case CancelRequested(id) =>
      Record(Write(Leave(l, id), id, CancelBody(l.tasks[id].body)), id, l.tasks[id].past.(asked := true))
    case OwnerReleased(id) =>
      Record(Write(Leave(l, id), id, ReleaseBody(l.tasks[id].body)), id, l.tasks[id].past.(released := true))
    case ResultTaken(id) =>
      Record(Write(l, id, TakeBody(l.tasks[id].body)), id, l.tasks[id].past.(taken := true))
    case Invoked(id, outcome, value) =>
      var e := Note(l.tasks[id], InvokeBody(l.tasks[id].body, outcome, value));
      l.(tasks := l.tasks[id :=
        e.(log := e.log.(invokedBy := e.log.invokedBy + [e.body.grant.value]),
           past := e.past.(returned := Some(outcome), produced := if outcome.Finished? then Some(value) else None))])
    case Published(id, outcome) =>
      Record(Write(l, id, PublishBody(l.tasks[id].body, outcome)), id, l.tasks[id].past.(published := true))
  }

  function NewHistory(work: nat): History { History(work, None, false, false, false, None, None, false) }

  // ---------------------------------------------------------------- one Task's life

  /** The type-state of the buffer in every state, and the exact lifetime counts. */
  predicate Lifetimes(e: Entry) {
    var b, log := e.body, e.log;
    && !b.payload.Corrupt?
    && log.callableEnds == (if b.payload.Callable? then 0 else 1)
    && log.resultStarts <= 1
    && log.resultEnds == log.resultStarts - (if b.payload.Result? then 1 else 0)
    && (log.resultStarts == 1 ==> log.invokedBy != [])
    && (b.payload.Callable? ==> log.invokedBy == [] && log.resultStarts == 0)
    && (log.invokedBy == [] || (b.grant.Some? && log.invokedBy == [b.grant.value]))
    && match b.state
       case Queued => b.owner && b.payload.Callable? && b.grant.None?
       case Running => b.grant.Some? && (b.payload.Callable? || log.invokedBy != [])
       case RunningCancelRequested => b.grant.Some? && (b.payload.Callable? || log.invokedBy != [])
       case Completed => b.grant.Some? && log.invokedBy != [] && log.resultStarts == 1
                         && (if b.owner then b.payload.Result? else b.payload.Empty?)
       case Cancelled => b.payload.Empty? && (b.grant.Some? <==> log.invokedBy != [])
  }

  // What a Task is, told from what has happened to it and from nothing else.

  predicate OwnedAfter(h: History) { !h.released && !h.taken }

  /** Cancelled, or given up, before any Worker was granted. */
  predicate DroppedAfter(h: History) { h.grantedTo.None? && (h.asked || h.released) }

  predicate QueuedAfter(h: History) { h.grantedTo.None? && !h.asked && !h.released }

  predicate RunningAfter(h: History) { h.grantedTo.Some? && !h.published }

  predicate CompletedAfter(h: History) { h.published && h.produced.Some? }

  predicate CancelledAfter(h: History) { DroppedAfter(h) || (h.published && h.produced.None?) }

  /** Events come in an order that makes sense. */
  predicate Consistent(h: History) {
    && (h.produced.Some? <==> h.returned == Some(Finished))
    && (h.returned.Some? ==> h.grantedTo.Some?) && (h.published ==> h.returned.Some?)
    && (h.taken ==> CompletedAfter(h) && !h.released)
  }

  /** The state, the owner bit, the grant and the content of the buffer are those that the history calls
      for. */
  predicate Explained(e: Entry) {
    var b, h := e.body, e.past;
    && Consistent(h)
    && (b.owner <==> OwnedAfter(h)) && b.grant == h.grantedTo
    && (b.state.Queued? <==> QueuedAfter(h))
    && (b.state.Running? <==> RunningAfter(h) && !h.asked)
    && (b.state.RunningCancelRequested? <==> RunningAfter(h) && h.asked)
    && (b.state.Completed? <==> CompletedAfter(h))
    && (b.state.Cancelled? <==> CancelledAfter(h))
    && (h.returned.None? && !DroppedAfter(h) ==> b.payload == Callable(h.work))
    && (h.produced.Some? && (!h.published || OwnedAfter(h)) ==> b.payload == Result(h.produced.value))
    && (DroppedAfter(h) || (h.returned.Some? && h.produced.None?) || (h.published && !OwnedAfter(h)) ==>
          b.payload == Empty)
  }

  /** Nothing of the Task is left: terminal, ownerless, empty buffer. */
  predicate Retired(b: Body) { IsTerminal(b) && !b.owner && b.payload.Empty? }

  /** Cancelled or abandoned before any Worker was granted. */
  predicate Dropped(b: Body) { b.state.Cancelled? && b.grant.None? }

  // ---------------------------------------------------------------- the order of grants

  /** The admission history below n without the dropped Tasks. */
  function Survivors(tasks: seq<Entry>, n: nat): seq<nat>
    requires n <= |tasks|
  {
    if n == 0 then []
    else Survivors(tasks, n - 1) + (if Dropped(tasks[n - 1].body) then [] else [n - 1])
  }

  /** Admissions without drops are the grants followed by the queue. */
  predicate Fifo(l: Ledger) {
    l.granted + l.queue == Survivors(l.tasks, |l.tasks|)
  }

  predicate QueueIsQueued(l: Ledger) {
    && (forall id :: id in l.queue ==> id < |l.tasks| && l.tasks[id].body.state.Queued?)
    && (forall id :: id in l.granted ==> id < |l.tasks| && HasGrant(l.tasks[id].body))
  }

  predicate Good(l: Ledger) {
    && (forall id :: 0 <= id < |l.tasks| ==> Lifetimes(l.tasks[id]) && Explained(l.tasks[id]))
    && Fifo(l)
    && QueueIsQueued(l)
  }

  // Facts about the survivor list.

  lemma {:induction false} SurvivorsAre(tasks: seq<Entry>, n: nat)
    requires n <= |tasks|
    ensures forall id: nat :: id in Survivors(tasks, n) <==> id < n && !Dropped(tasks[id].body)
    ensures forall j, k :: 0 <= j < k < |Survivors(tasks, n)| ==> Survivors(tasks, n)[j] < Survivors(tasks, n)[k]
  {
    if n > 0 {
      SurvivorsAre(tasks, n - 1);
      var s, t := Survivors(tasks, n - 1), Survivors(tasks, n);
      forall id: nat ensures id in t <==> id < n && !Dropped(tasks[id].body) {
        assert id in t <==> id in s || (id == n - 1 && !Dropped(tasks[n - 1].body));
      }
      forall j, k | 0 <= j < k < |t| ensures t[j] < t[k] {
        assert t[j] == s[j] && s[j] in s;
      }
    }
  }

  lemma {:induction false} SurvivorsSame(a: seq<Entry>, b: seq<Entry>, n: nat)
    requires n <= |a| && n <= |b|
    requires forall id :: 0 <= id < n ==> (Dropped(a[id].body) <==> Dropped(b[id].body))
    ensures Survivors(a, n) == Survivors(b, n)
  {
    if n > 0 { SurvivorsSame(a, b, n - 1); }
  }

  lemma {:induction false} WithoutAppend(p: seq<nat>, q: seq<nat>, x: nat)
    ensures Without(p + q, x) == if x in p then Without(p, x) + q else p + Without(q, x)
  {
    if p == [] {
      assert p + q == q;
    } else {
      var h, r := [p[0]], p[1..];
      assert p == h + r && (p + q)[1..] == r + q;
      if p[0] != x {
        WithoutAppend(r, q, x);
        assert Without(p + q, x) == h + Without(r + q, x);
        if x in r {
          assert h + (Without(r, x) + q) == (h + Without(r, x)) + q;
        } else {
          assert h + (r + Without(q, x)) == (h + r) + Without(q, x);
        }
      }
    }
  }

  lemma {:induction false} WithoutAbsent(q: seq<nat>, x: nat)
    requires x !in q
    ensures Without(q, x) == q
  {
    if q != [] { WithoutAbsent(q[1..], x); }
  }

  lemma {:induction false} SurvivorsDrop(a: seq<Entry>, b: seq<Entry>, id: nat, n: nat)
    requires n <= |a| && n <= |b| && id < |a| && id < |b|
    requires forall k :: 0 <= k < n && k != id ==> (Dropped(a[k].body) <==> Dropped(b[k].body))
    requires !Dropped(a[id].body) && Dropped(b[id].body)
    ensures Survivors(b, n) == Without(Survivors(a, n), id)
  {
    if n == 0 {
    } else if id == n - 1 {
      SurvivorsDropLast(a, b, n);
    } else {
      SurvivorsDrop(a, b, id, n - 1);
      var last := if Dropped(a[n - 1].body) then [] else [n - 1];
      assert Survivors(a, n) == Survivors(a, n - 1) + last && Survivors(b, n) == Survivors(b, n - 1) + last;
      WithoutBeforeOthers(Survivors(a, n - 1), last, id);
    }
  }

  lemma {:induction false} SurvivorsDropLast(a: seq<Entry>, b: seq<Entry>, n: nat)
    requires 0 < n <= |a| && n <= |b|
    requires forall k :: 0 <= k < n - 1 ==> (Dropped(a[k].body) <==> Dropped(b[k].body))
    requires !Dropped(a[n - 1].body) && Dropped(b[n - 1].body)
    ensures Survivors(b, n) == Without(Survivors(a, n), n - 1)
  {
    SurvivorsAre(a, n - 1);
    SurvivorsSame(a, b, n - 1);
    assert Survivors(a, n) == Survivors(a, n - 1) + [n - 1];
    WithoutAppend(Survivors(a, n - 1), [n - 1], n - 1);
    assert Without([n - 1], n - 1) == [];
  }

  lemma {:induction false} WithoutBeforeOthers(p: seq<nat>, q: seq<nat>, x: nat)
    requires x !in q
    ensures Without(p + q, x) == Without(p, x) + q
  {
    WithoutAppend(p, q, x);
    WithoutAbsent(q, x);
    if x !in p { WithoutAbsent(p, x); }
  }

  lemma {:induction false} WithoutKeeps(q: seq<nat>, x: nat)
    ensures forall y :: y in Without(q, x) ==> y in q
    ensures forall y :: y in q && y != x ==> y in Without(q, x)
    ensures |Without(q, x)| <= |q|
  {
    if q != [] && q[0] != x {
      WithoutKeeps(q[1..], x);
      assert forall y :: y in q <==> y == q[0] || y in q[1..];
    }
  }

  // ---------------------------------------------------------------- every event keeps Good

  /** Writing a body that neither drops, queues nor grants changes no order. */
  lemma {:induction false} WriteKeeps(l: Ledger, m: Ledger, id: nat)
    requires Good(l) && id < |l.tasks| && |m.tasks| == |l.tasks|
    requires m.queue == l.queue && m.granted == l.granted
    requires forall k :: 0 <= k < |l.tasks| && k != id ==> m.tasks[k] == l.tasks[k]
    requires Lifetimes(m.tasks[id]) && Explained(m.tasks[id])
    requires Dropped(l.tasks[id].body) <==> Dropped(m.tasks[id].body)
    requires l.tasks[id].body.state.Queued? <==> m.tasks[id].body.state.Queued?
    requires HasGrant(l.tasks[id].body) ==> HasGrant(m.tasks[id].body)
    ensures Good(m)
  {
    SurvivorsSame(l.tasks, m.tasks, |l.tasks|);
  }

  /** Leaving the queue by cancellation or abandonment. */
  lemma {:induction false} DropKeeps(l: Ledger, m: Ledger, id: nat)
    requires Good(l) && id < |l.tasks| && |m.tasks| == |l.tasks|
    requires m.queue == Without(l.queue, id) && m.granted == l.granted
    requires forall k :: 0 <= k < |l.tasks| && k != id ==> m.tasks[k] == l.tasks[k]
    requires Lifetimes(m.tasks[id]) && Explained(m.tasks[id])
    requires l.tasks[id].body.state.Queued? && Dropped(m.tasks[id].body)
    ensures Good(m)
  {
    SurvivorsDrop(l.tasks, m.tasks, id, |l.tasks|);
    WithoutAppend(l.granted, l.queue, id);
    assert id !in l.granted;
    WithoutKeeps(l.queue, id);
    QueueDistinct(l);
    NotInWithout(l.queue, id);
  }

  lemma {:induction false} NotInWithout(q: seq<nat>, x: nat)
    requires forall j, k :: 0 <= j < k < |q| ==> q[j] != q[k]
    ensures x !in Without(q, x)
  {
    if q != [] {
      if q[0] != x {
        NotInWithout(q[1..], x);
      }
    }
  }

  /** Grants and queue together never repeat a Task. */
  lemma {:induction false} QueueDistinct(l: Ledger)
    requires Fifo(l)
    ensures forall j, k :: 0 <= j < k < |l.queue| ==> l.queue[j] < l.queue[k]
    ensures forall j, k :: 0 <= j < k < |l.granted| ==> l.granted[j] < l.granted[k]
    ensures forall j, k :: 0 <= j < |l.granted| && 0 <= k < |l.queue| ==> l.granted[j] < l.queue[k]
  {
    var all := l.granted + l.queue;
    SurvivorsAre(l.tasks, |l.tasks|);
    forall j, k | 0 <= j < k < |l.queue| ensures l.queue[j] < l.queue[k] {
      assert all[|l.granted| + j] == l.queue[j] && all[|l.granted| + k] == l.queue[k];
    }
    forall j, k | 0 <= j < k < |l.granted| ensures l.granted[j] < l.granted[k] {
      assert all[j] == l.granted[j] && all[k] == l.granted[k];
    }
    forall j, k | 0 <= j < |l.granted| && 0 <= k < |l.queue| ensures l.granted[j] < l.queue[k] {
      assert all[j] == l.granted[j] && all[|l.granted| + k] == l.queue[k];
    }
  }

  lemma {:induction false} AdmissionKeepsGood(l: Ledger, work: nat)
    requires Good(l)
    ensures Good(Happen(l, Admitted(work)))
  {
    var m := Happen(l, Admitted(work));
    SurvivorsSame(l.tasks, m.tasks, |l.tasks|);
    assert m.granted + m.queue == (l.granted + l.queue) + [|l.tasks|];
  }

  lemma {:induction false} GrantedEntry(e: Entry, w: nat)
    requires Lifetimes(e) && Explained(e) && e.body.state.Queued?
    ensures var g := Note(e, GrantBody(e.body, w)).(past := e.past.(grantedTo := Some(w)));
      Lifetimes(g) && Explained(g) && HasGrant(g.body) && !Dropped(g.body)
  {
  }

  lemma {:induction false} GrantKeepsOrder(l: Ledger, m: Ledger)
    requires Good(l) && l.queue != [] && l.queue[0] < |l.tasks| && |m.tasks| == |l.tasks|
    requires m.queue == l.queue[1..] && m.granted == l.granted + [l.queue[0]]
    requires forall k :: 0 <= k < |l.tasks| && k != l.queue[0] ==> m.tasks[k] == l.tasks[k]
    requires HasGrant(m.tasks[l.queue[0]].body) && !Dropped(m.tasks[l.queue[0]].body)
    ensures Fifo(m) && QueueIsQueued(m)
  {
    assert l.queue[0] in l.queue;
    SurvivorsSame(l.tasks, m.tasks, |l.tasks|);
    assert m.granted + m.queue == l.granted + l.queue;
    QueueDistinct(l);
    assert forall x :: x in m.queue ==> x in l.queue && x != l.queue[0];
  }

  lemma {:induction false} GrantKeepsGood(l: Ledger, w: nat)
    requires Good(l) && CanHappen(l, GrantedTo(w))
    ensures Good(Happen(l, GrantedTo(w)))
  {
    var m, id := Happen(l, GrantedTo(w)), l.queue[0];
    assert id in l.queue;
    GrantedEntry(l.tasks[id], w);
    assert forall k :: 0 <= k < |l.tasks| && k != id ==> m.tasks[k] == l.tasks[k];
    GrantKeepsOrder(l, m);
  }

  lemma {:induction false} CancelKeepsGood(l: Ledger, id: nat)
    requires Good(l) && id < |l.tasks|
    ensures Good(Happen(l, CancelRequested(id)))
  {
    var m := Happen(l, CancelRequested(id));
    assert Lifetimes(l.tasks[id]);
    if l.tasks[id].body.state.Queued? { DropKeeps(l, m, id); } else { WriteKeeps(l, m, id); }
  }

  lemma {:induction false} ReleaseKeepsGood(l: Ledger, id: nat)
    requires Good(l) && CanHappen(l, OwnerReleased(id))
    ensures Good(Happen(l, OwnerReleased(id)))
  {
    var m := Happen(l, OwnerReleased(id));
    assert Lifetimes(l.tasks[id]);
    if l.tasks[id].body.state.Queued? { DropKeeps(l, m, id); } else { WriteKeeps(l, m, id); }
  }

  /** Every event of the ideal facility keeps the buffer type-states, the exactly-once counts and
      the FIFO equation. */
  lemma {:induction false} EventKeepsGood(l: Ledger, e: Event)
    requires Good(l) && CanHappen(l, e)
    ensures Good(Happen(l, e))
  {
    var m := Happen(l, e);
    match e
    case Admitted(work) => AdmissionKeepsGood(l, work);
    case GrantedTo(w) => GrantKeepsGood(l, w);
    case CancelRequested(id) => CancelKeepsGood(l, id);
    case OwnerReleased(id) => ReleaseKeepsGood(l, id);
    case ResultTaken(id) => assert Lifetimes(l.tasks[id]); WriteKeeps(l, m, id);
    case Invoked(id, _, _) => assert Lifetimes(l.tasks[id]); WriteKeeps(l, m, id);
    case Published(id, _) => assert Lifetimes(l.tasks[id]); WriteKeeps(l, m, id);
  }

  // ---------------------------------------------------------------- what Good says

  /** HasWorkerGrant is exact history: it answers yes for exactly the Tasks some Worker claimed. */
  lemma {:induction false} GrantAnswerIsHistory(l: Ledger, id: nat)
    requires Good(l) && id < |l.tasks|
    ensures HasGrant(l.tasks[id].body) <==> id in l.granted
  {
    SurvivorsAre(l.tasks, |l.tasks|);
    assert Lifetimes(l.tasks[id]);
    if HasGrant(l.tasks[id].body) {
      assert id in Survivors(l.tasks, |l.tasks|);
      assert id in l.granted + l.queue;
    }
  }

  /** A Task that left the queue without a grant never gets one and never runs, whatever follows. */
  lemma {:induction false} DroppedStaysDropped(l: Ledger, e: Event, id: nat)
    requires Good(l) && CanHappen(l, e) && id < |l.tasks| && Dropped(l.tasks[id].body)
    ensures id < |Happen(l, e).tasks| && Dropped(Happen(l, e).tasks[id].body)
  {
    if e.GrantedTo? { assert l.queue[0] in l.queue; }
  }

  /** A Task nobody owns any more that is terminal with an empty buffer never changes again. */
  lemma {:induction false} RetiredStaysRetired(l: Ledger, e: Event, id: nat)
    requires Good(l) && CanHappen(l, e) && id < |l.tasks| && Retired(l.tasks[id].body)
    ensures id < |Happen(l, e).tasks|
    ensures Happen(l, e).tasks[id].body == l.tasks[id].body && Happen(l, e).tasks[id].log == l.tasks[id].log
  {
    if e.GrantedTo? { assert l.queue[0] in l.queue; }
  }

  /** How far a Task has come. */
  function Rank(state: OperationalState): nat {
    match state
    case Queued => 0
    case Running => 1
    case RunningCancelRequested => 2
    case Completed => 3
    case Cancelled => 3
  }

  /** From b to c a Task only went forward: states advance, a terminal state is final, an interest given
      up does not come back, a grant stays with its Worker and a callable that is there was there before. */
  predicate Advanced(b: Body, c: Body) {
    && Rank(b.state) <= Rank(c.state) && (IsTerminal(b) ==> c.state == b.state)
    && (c.owner ==> b.owner) && (b.grant.Some? ==> c.grant == b.grant)
    && (c.payload.Callable? ==> c.payload == b.payload)
  }

  /** What an event does to the Task it is about. */
  lemma {:induction false} BodiesAdvance(e: Entry, w: nat, outcome: InvocationOutcome, value: nat)
    requires Lifetimes(e)
    ensures e.body.state.Queued? ==> Advanced(e.body, GrantBody(e.body, w))
    ensures Advanced(e.body, CancelBody(e.body)) && Advanced(e.body, ReleaseBody(e.body))
    ensures Advanced(e.body, TakeBody(e.body)) && Advanced(e.body, InvokeBody(e.body, outcome, value))
    ensures IsRunning(e.body) && e.log.invokedBy != [] ==> Advanced(e.body, PublishBody(e.body, outcome))
  {
  }

  /** No event of the ideal facility takes a Task back. */
  lemma {:induction false} EventAdvances(l: Ledger, e: Event, id: nat)
    requires Good(l) && CanHappen(l, e) && id < |l.tasks|
    ensures id < |Happen(l, e).tasks| && Advanced(l.tasks[id].body, Happen(l, e).tasks[id].body)
  {
    var it := l.tasks[id];
    assert Lifetimes(it);
    if About(l, e) != Some(id) {
      OthersStand(l, e, id);
    } else {
      match e
      case GrantedTo(w) =>
        assert l.queue[0] in l.queue;
        BodiesAdvance(it, w, Abandoned, 0);
      case Invoked(_, outcome, value) => BodiesAdvance(it, 0, outcome, value);
      case Published(_, outcome) => BodiesAdvance(it, 0, outcome, 0);
      case Admitted(_) =>
      case CancelRequested(_) => BodiesAdvance(it, 0, Abandoned, 0);
      case OwnerReleased(_) => BodiesAdvance(it, 0, Abandoned, 0);
      case ResultTaken(_) => BodiesAdvance(it, 0, Abandoned, 0);
    }
  }

  /** The Task an event is about. */
  function About(l: Ledger, e: Event): Option<nat>
    requires CanHappen(l, e)
  {
    match e
    case Admitted(_) => None
    case GrantedTo(_) => Some(l.queue[0])
    case CancelRequested(id) => Some(id)
    case OwnerReleased(id) => Some(id)
    case ResultTaken(id) => Some(id)
    case Invoked(id, _, _) => Some(id)
    case Published(id, _) => Some(id)
  }

  lemma {:induction false} OthersStand(l: Ledger, e: Event, id: nat)
    requires CanHappen(l, e) && id < |l.tasks| && About(l, e) != Some(id)
    ensures id < |Happen(l, e).tasks| && Happen(l, e).tasks[id] == l.tasks[id]
  {
  }

  // ---------------------------------------------------------------- runs of the ideal facility

  predicate CanReplay(l: Ledger, es: seq<Event>)
    decreases |es|
  {
    es == [] || (CanHappen(l, es[0]) && CanReplay(Happen(l, es[0]), es[1..]))
  }

  function Replay(l: Ledger, es: seq<Event>): Ledger
    requires CanReplay(l, es)
    decreases |es|
  {
    if es == [] then l else Replay(Happen(l, es[0]), es[1..])
  }

  lemma {:induction false} ReplayAppend(l: Ledger, a: seq<Event>, b: seq<Event>)
    requires CanReplay(l, a) && CanReplay(Replay(l, a), b)
    ensures CanReplay(l, a + b) && Replay(l, a + b) == Replay(Replay(l, a), b)
    decreases |a|
  {
    if a == [] {
      assert a + b == b;
    } else {
      assert (a + b)[1..] == a[1..] + b;
      ReplayAppend(Happen(l, a[0]), a[1..], b);
    }
  }

  lemma {:induction false} ReplayOne(l: Ledger, e: Event)
    requires CanHappen(l, e)
    ensures CanReplay(l, [e]) && Replay(l, [e]) == Happen(l, e)
  {
    assert [e][1..] == [];
    assert Replay(Happen(l, e), []) == Happen(l, e);
  }

  /** Whatever happens later, a dropped Task stays dropped and a retired Task is never touched. */
  lemma {:induction false} ReplayKeeps(l: Ledger, es: seq<Event>, id: nat)
    requires Good(l) && CanReplay(l, es) && id < |l.tasks|
    ensures Good(Replay(l, es)) && id < |Replay(l, es).tasks|
    ensures Dropped(l.tasks[id].body) ==> Dropped(Replay(l, es).tasks[id].body)
    ensures Retired(l.tasks[id].body) ==>
      Replay(l, es).tasks[id].body == l.tasks[id].body && Replay(l, es).tasks[id].log == l.tasks[id].log
    decreases |es|
  {
    if es != [] {
      EventKeepsGood(l, es[0]);
      if Dropped(l.tasks[id].body) { DroppedStaysDropped(l, es[0], id); }
      if Retired(l.tasks[id].body) { RetiredStaysRetired(l, es[0], id); }
      ReplayKeeps(Happen(l, es[0]), es[1..], id);
    }
  }

  lemma {:induction false} ReplayAdvances(l: Ledger, es: seq<Event>, id: nat)
    requires Good(l) && CanReplay(l, es) && id < |l.tasks|
    ensures id < |Replay(l, es).tasks| && Advanced(l.tasks[id].body, Replay(l, es).tasks[id].body)
    decreases |es|
  {
    if es != [] {
      EventAdvances(l, es[0], id);
      EventKeepsGood(l, es[0]);
      ReplayAdvances(Happen(l, es[0]), es[1..], id);
    }
  }

  // ---------------------------------------------------------------- histories only grow

  /** What has happened to a Task stays so. */
  predicate Remembered(g: History, h: History) {
    && h.work == g.work && (g.grantedTo.Some? ==> h.grantedTo == g.grantedTo)
    && (g.asked ==> h.asked) && (g.released ==> h.released) && (g.taken ==> h.taken)
    && (g.returned.Some? ==> h.returned == g.returned && h.produced == g.produced)
    && (g.published ==> h.published)
  }

  lemma {:induction false} EventRemembers(l: Ledger, e: Event, id: nat)
    requires Good(l) && CanHappen(l, e) && id < |l.tasks|
    ensures id < |Happen(l, e).tasks| && Remembered(l.tasks[id].past, Happen(l, e).tasks[id].past)
  {
    assert Explained(l.tasks[id]);
    if About(l, e) != Some(id) {
      OthersStand(l, e, id);
    } else if e.GrantedTo? {
      assert l.queue[0] in l.queue;
    }
  }

  lemma {:induction false} ReplayRemembers(l: Ledger, es: seq<Event>, id: nat)
    requires Good(l) && CanReplay(l, es) && id < |l.tasks|
    ensures id < |Replay(l, es).tasks| && Remembered(l.tasks[id].past, Replay(l, es).tasks[id].past)
    decreases |es|
  {
    if es != [] {
      EventRemembers(l, es[0], id);
      EventKeepsGood(l, es[0]);
      ReplayRemembers(Happen(l, es[0]), es[1..], id);
    }
  }

  /** The callables that the events admit, in order. */
  function Works(es: seq<Event>): seq<nat> {
    if es == [] then [] else (if es[0].Admitted? then [es[0].work] else []) + Works(es[1..])
  }

  lemma {:induction false} WorksAppend(a: seq<Event>, b: seq<Event>)
    ensures Works(a + b) == Works(a) + Works(b)
    decreases |a|
  {
    if a == [] {
      assert a + b == b;
    } else {
      var head := if a[0].Admitted? then [a[0].work] else [];
      assert (a + b)[0] == a[0] && (a + b)[1..] == a[1..] + b;
      WorksAppend(a[1..], b);
      assert Works(a + b) == head + Works(a[1..] + b);
      assert head + (Works(a[1..]) + Works(b)) == (head + Works(a[1..])) + Works(b);
    }
  }

  /** The callables that the Tasks were dispatched with, by number. */
  function WorksOf(l: Ledger): seq<nat> {
    seq(|l.tasks|, id requires 0 <= id < |l.tasks| => l.tasks[id].past.work)
  }

  lemma {:induction false} EventNumbers(l: Ledger, e: Event)
    requires CanHappen(l, e)
    ensures WorksOf(Happen(l, e)) == WorksOf(l) + Works([e])
  {
    assert [e][1..] == [] && Works([]) == [];
    var m := Happen(l, e);
    if e.Admitted? {
      assert |m.tasks| == |l.tasks| + 1 && m.tasks[|l.tasks|].past.work == e.work;
      assert forall id :: 0 <= id < |l.tasks| ==> m.tasks[id] == l.tasks[id];
    } else {
      assert |m.tasks| == |l.tasks|;
      assert forall id :: 0 <= id < |l.tasks| ==> m.tasks[id].past.work == l.tasks[id].past.work;
    }
  }

  /** Tasks are numbered by admission: those that the events admit come behind those that are there, each
      with the callable it was dispatched with, and nobody's callable changes. */
  lemma {:induction false} ReplayNumbers(l: Ledger, es: seq<Event>)
    requires CanReplay(l, es)
    ensures WorksOf(Replay(l, es)) == WorksOf(l) + Works(es)
    decreases |es|
  {
    if es != [] {
      EventNumbers(l, es[0]);
      ReplayNumbers(Happen(l, es[0]), es[1..]);
      assert Works(es) == Works([es[0]]) + Works(es[1..]) by { assert [es[0]][1..] == []; }
    }
  }
}
