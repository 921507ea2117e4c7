/** Which mutex a context holds while it takes another one.  Two things make a section nest: a wait for a
    grant or for capacity looks for an interruption with the mutex of its facility in hand, and the answer
    is under the mutex of the resource that owns the asking context; and a section that destroys a callable
    or a result does so with the mutex of its facility in hand, and a Task handle inside takes the mutex of
    its own facility when it goes.  What that releases may be destroyed in turn, so sections nest to any
    depth.  A mutex is not recursive. */
module LockDiscipline {
  import opened Registrations
  import opened Pigeonholes
  import opened Runs

  /** The contexts of one resource. */
  datatype Range = Range(first: nat, count: nat)

  predicate Serves(r: Range, c: nat) { r.first <= c < r.first + r.count }

  /** The resource that answers for context c: the first one, in topology order, whose range it is in. */
  function Owner(ranges: seq<Range>, c: nat): (k: Option<nat>)
    ensures k.Some? ==> k.value < |ranges| && Serves(ranges[k.value], c)
  {
    if ranges == [] then None
    else if Serves(ranges[0], c) then Some(0)
    else match Owner(ranges[1..], c) case None => None case Some(k) => Some(k + 1)
  }

  /** waits holds the pairs of a context and a facility in which it waits during a dispatch; owns the pairs
      of a facility, one of whose callables or results has a Task handle, and the facility of that handle. */
  datatype Topology = Topology(ranges: seq<Range>, waits: set<(nat, nat)>, owns: set<(nat, nat)>)

  ghost predicate Valid(p: Topology) {
    && (forall c, k :: (c, k) in p.waits ==> k < |p.ranges|)
    && (forall k, j :: (k, j) in p.owns ==> k < |p.ranges| && j < |p.ranges|)
  }

  /** Context c may take mutex j directly under mutex k. */
  predicate Link(p: Topology, c: nat, k: nat, j: nat) {
    (k, j) in p.owns || ((c, k) in p.waits && Owner(p.ranges, c) == Some(j))
  }

  datatype Op = Take(m: nat) | Give(m: nat)

  /** ops is what is left of a section in which held, outermost first, has been taken: it is well bracketed
      and nests only along links. */
  predicate Legal(p: Topology, c: nat, held: seq<nat>, ops: seq<Op>)
    decreases |ops|
  {
    if ops == [] then held == []
    else match ops[0]
      case Take(m) =>
        && m < |p.ranges| && (held == [] || Link(p, c, held[|held| - 1], m))
        && Legal(p, c, held + [m], ops[1..])
      case Give(m) =>
        held != [] && held[|held| - 1] == m && Legal(p, c, held[..|held| - 1], ops[1..])
  }

  /** What a context holds, outermost first, and what it has still to do. */
  datatype Place = Place(held: seq<nat>, rest: seq<Op>)

  const OUTSIDE := Place([], [])

  datatype System = System(p: Topology, holder: seq<Option<nat>>, places: seq<Place>)

  datatype Action = Begin(c: nat, ops: seq<Op>) | Step(c: nat)

  predicate CanAct(s: System, a: Action) {
    && a.c < |s.places|
    && match a
       case Begin(c, ops) => s.places[c] == OUTSIDE && Legal(s.p, c, [], ops)
       case Step(c) =>
         && s.places[c].rest != [] && s.places[c].rest[0].m < |s.holder|
         && (s.places[c].rest[0].Take? ==> s.holder[s.places[c].rest[0].m].None?)
         && (s.places[c].rest[0].Give? ==> s.places[c].held != [])
  }

  function Act(s: System, a: Action): System
    requires CanAct(s, a)
  {
    match a
    case Begin(c, ops) => s.(places := s.places[c := Place([], ops)])
    case Step(c) =>
      var held, rest := s.places[c].held, s.places[c].rest;
      match rest[0]
      case Take(m) => s.(places := s.places[c := Place(held + [m], rest[1..])], holder := s.holder[m := Some(c)])
      case Give(m) =>
        s.(places := s.places[c := Place(held[..|held| - 1], rest[1..])], holder := s.holder[m := None])
  }

  // ---------------------------------------------------------------- the invariant

  /** Neighbours on the stack are linked, and no mutex is on it twice. */
  ghost predicate Stacked(p: Topology, c: nat, held: seq<nat>) {
    && (forall i :: 0 < i < |held| ==> Link(p, c, held[i - 1], held[i]))
    && (forall i, j :: 0 <= i < j < |held| ==> held[i] != held[j])
  }

  ghost predicate HoldsOk(holder: seq<Option<nat>>, held: seq<nat>, c: nat, m: nat) {
    m in held <==> m < |holder| && holder[m] == Some(c)
  }

  ghost predicate PlaceOk(s: System, c: nat) {
    c < |s.places| ==>
      && Legal(s.p, c, s.places[c].held, s.places[c].rest)
      && Stacked(s.p, c, s.places[c].held)
      && (forall m: nat :: HoldsOk(s.holder, s.places[c].held, c, m))
  }

  ghost predicate Inv(s: System) {
    && Valid(s.p) && |s.holder| == |s.p.ranges|
    && (forall c: nat :: PlaceOk(s, c))
    && (forall m :: 0 <= m < |s.holder| && s.holder[m].Some? ==> s.holder[m].value < |s.places|)
  }

  lemma {:induction false} Pushed(p: Topology, c: nat, held: seq<nat>, m: nat)
    requires Stacked(p, c, held) && m !in held && (held == [] || Link(p, c, held[|held| - 1], m))
    ensures Stacked(p, c, held + [m])
  {
  }

  lemma {:induction false} Popped(p: Topology, c: nat, held: seq<nat>, m: nat)
    requires Stacked(p, c, held) && held != []
    ensures Stacked(p, c, held[..|held| - 1])
    ensures m in held[..|held| - 1] <==> m in held && m != held[|held| - 1]
  {
    if m in held && m != held[|held| - 1] {
      var i :| 0 <= i < |held| && held[i] == m;
      assert held[..|held| - 1][i] == m;
    }
  }

  lemma {:induction false} MoverKeeps(s: System, c: nat)
    requires Inv(s) && CanAct(s, Step(c))
    ensures PlaceOk(Act(s, Step(c)), c)
  {
    var t, held, op := Act(s, Step(c)), s.places[c].held, s.places[c].rest[0];
    assert PlaceOk(s, c) && HoldsOk(s.holder, held, c, op.m);
    if op.Take? { Pushed(s.p, c, held, op.m); } else { Popped(s.p, c, held, op.m); }
    forall m: nat ensures HoldsOk(t.holder, t.places[c].held, c, m) {
      assert HoldsOk(s.holder, held, c, m);
      if op.Give? { Popped(s.p, c, held, m); }
    }
  }

  lemma {:induction false} OtherKeeps(s: System, a: Action, d: nat)
    requires Inv(s) && CanAct(s, a) && d < |s.places| && d != a.c
    ensures PlaceOk(Act(s, a), d)
  {
    var t := Act(s, a);
    assert PlaceOk(s, d) && PlaceOk(s, a.c);
    forall m: nat ensures HoldsOk(t.holder, t.places[d].held, d, m) {
      assert HoldsOk(s.holder, s.places[d].held, d, m) && HoldsOk(s.holder, s.places[a.c].held, a.c, m);
    }
  }

  lemma {:induction false} StepKeeps(s: System, a: Action)
    requires Inv(s) && CanAct(s, a)
    ensures Inv(Act(s, a))
  {
    var t := Act(s, a);
    forall d: nat ensures PlaceOk(t, d) {
      assert PlaceOk(s, d);
      if d < |s.places| && d != a.c { OtherKeeps(s, a, d); }
      if d == a.c && a.Step? { MoverKeeps(s, d); }
    }
  }

  // ---------------------------------------------------------------- runs

  ghost predicate Next(s: System, t: System) { exists a :: CanAct(s, a) && t == Act(s, a) }

  function Init(p: Topology, contexts: nat): System {
    System(p, seq(|p.ranges|, k => None), seq(contexts, c => OUTSIDE))
  }

  ghost predicate Reachable(s: System) { Valid(s.p) && exists contexts :: Leads(Next, Init(s.p, contexts), s) }

  lemma {:induction false} NextKeeps(s: System, t: System)
    requires Inv(s) && Next(s, t)
    ensures Inv(t)
  {
    var a :| CanAct(s, a) && t == Act(s, a);
    StepKeeps(s, a);
  }

  lemma {:induction false} InitHolds(p: Topology, contexts: nat)
    requires Valid(p)
    ensures Inv(Init(p, contexts))
  {
    var s := Init(p, contexts);
    forall c: nat ensures PlaceOk(s, c) {}
  }

  lemma {:induction false} ReachableHolds(s: System)
    requires Reachable(s)
    ensures Inv(s)
  {
    var contexts :| Leads(Next, Init(s.p, contexts), s);
    InitHolds(s.p, contexts);
    forall a, b | Inv(a) && Next(a, b) ensures Inv(b) { NextKeeps(a, b); }
    InvariantHolds(Next, Inv, Init(s.p, contexts), s);
  }

  // ---------------------------------------------------------------- rings

  /** Context c needs a mutex that somebody in ring holds. */
  ghost predicate Caught(s: System, ring: set<nat>, c: nat) {
    && c < |s.places| && s.places[c].rest != [] && s.places[c].rest[0].Take?
    && s.places[c].rest[0].m < |s.holder| && s.holder[s.places[c].rest[0].m].Some?
    && s.holder[s.places[c].rest[0].m].value in ring
  }

  ghost predicate IsRing(s: System, ring: set<nat>) {
    ring != {} && forall c {:trigger Caught(s, ring, c)} :: c in ring ==> Caught(s, ring, c)
  }

  /** From s to t everybody in the ring has stayed where it was. */
  ghost predicate StillCaught(s: System, ring: set<nat>, t: System) {
    && Inv(t) && IsRing(t, ring) && |t.places| == |s.places|
    && forall c :: c in ring ==> c < |s.places| && t.places[c] == s.places[c]
  }

  lemma {:induction false} MemberStays(t: System, ring: set<nat>, a: Action, c: nat)
    requires Inv(t) && IsRing(t, ring) && CanAct(t, a) && c in ring
    ensures a.c != c && Caught(Act(t, a), ring, c)
  {
    assert Caught(t, ring, c);
    var m := t.places[c].rest[0].m;
    var d := t.holder[m].value;
    assert Caught(t, ring, d);
    assert PlaceOk(t, d) && PlaceOk(t, a.c);
    assert HoldsOk(t.holder, t.places[d].held, d, m) && HoldsOk(t.holder, t.places[a.c].held, a.c, m);
  }

  lemma {:induction false} RingStays(t: System, ring: set<nat>, a: Action)
    requires Inv(t) && IsRing(t, ring) && CanAct(t, a)
    ensures StillCaught(t, ring, Act(t, a))
  {
    StepKeeps(t, a);
    forall c | c in ring
      ensures Caught(Act(t, a), ring, c) && c < |t.places| && Act(t, a).places[c] == t.places[c]
    {
      MemberStays(t, ring, a, c);
    }
  }

  lemma {:induction false} CaughtStays(s: System, ring: set<nat>, t: System, u: System)
    requires StillCaught(s, ring, t) && Next(t, u)
    ensures StillCaught(s, ring, u)
  {
    var a :| CanAct(t, a) && u == Act(t, a);
    RingStays(t, ring, a);
  }

  /** A ring is never broken: in every continuation of the run everybody in it is still waiting for the
      mutex it needs and still holds those it has. */
  lemma {:induction false} RingNeverBreaks(s: System, ring: set<nat>, t: System)
    requires Reachable(s) && IsRing(s, ring) && Leads(Next, s, t)
    ensures StillCaught(s, ring, t)
  {
    ReachableHolds(s);
    forall c | c in ring ensures c < |s.places| { assert Caught(s, ring, c); }
    forall u, v | StillCaught(s, ring, u) && Next(u, v) ensures StillCaught(s, ring, v) { CaughtStays(s, ring, u, v); }
    InvariantHolds(Next, u => StillCaught(s, ring, u), s, t);
  }

  /** Two contexts that each need a mutex of the other, in dispatch waits or in the ends of payloads, stay
      where they are in every continuation of the run. */
  lemma {:induction false} CrossedSectionsNeverReturn(s: System, c: nat, d: nat, t: System)
    requires Reachable(s) && c < |s.places| && d < |s.places| && Leads(Next, s, t)
    requires s.places[c].rest != [] && s.places[c].rest[0].Take? && s.places[c].rest[0].m in s.places[d].held
    requires s.places[d].rest != [] && s.places[d].rest[0].Take? && s.places[d].rest[0].m in s.places[c].held
    ensures |t.places| == |s.places| && t.places[c] == s.places[c] && t.places[d] == s.places[d]
  {
    ReachableHolds(s);
    assert PlaceOk(s, c) && PlaceOk(s, d);
    assert HoldsOk(s.holder, s.places[c].held, c, s.places[d].rest[0].m);
    assert HoldsOk(s.holder, s.places[d].held, d, s.places[c].rest[0].m);
    assert IsRing(s, {c, d});
    RingNeverBreaks(s, {c, d}, t);
  }

  /** The contexts that hold something. */
  function Holders(s: System): set<nat> { set c | 0 <= c < |s.places| && s.places[c].held != [] }

  lemma {:induction false} StuckIsCaught(s: System, c: nat)
    requires Inv(s) && c in Holders(s) && !CanAct(s, Step(c))
    ensures Caught(s, Holders(s), c)
  {
    assert PlaceOk(s, c);
    var held, op := s.places[c].held, s.places[c].rest[0];
    assert HoldsOk(s.holder, held, c, held[|held| - 1]);
    var d := s.holder[op.m];
    assert d.Some? ==> PlaceOk(s, d.value) && HoldsOk(s.holder, s.places[d.value].held, d.value, op.m);
  }

  /** A state in which somebody holds a mutex and nobody who does can go on is a ring: there is no other
      deadlock. */
  lemma {:induction false} DeadlockIsARing(s: System)
    requires Reachable(s) && Holders(s) != {} && forall c :: c in Holders(s) ==> !CanAct(s, Step(c))
    ensures IsRing(s, Holders(s))
  {
    ReachableHolds(s);
    forall c | c in Holders(s) ensures Caught(s, Holders(s), c) { StuckIsCaught(s, c); }
  }

  // ---------------------------------------------------------------- sections that meet a mutex again

  /** What is left of the section takes a mutex it holds. */
  predicate Reenters(held: seq<nat>, ops: seq<Op>)
    decreases |ops|
  {
    && ops != []
    && match ops[0]
       case Take(m) => m in held || Reenters(held + [m], ops[1..])
       case Give(m) => held != [] && Reenters(held[..|held| - 1], ops[1..])
  }

  ghost predicate Returns(s: System, c: nat) {
    exists t :: Leads(Next, s, t) && c < |t.places| && t.places[c] == OUTSIDE
  }

  ghost predicate Lost(s: System, c: nat) {
    Inv(s) && c < |s.places| && Reenters(s.places[c].held, s.places[c].rest)
  }

  lemma {:induction false} LostStays(s: System, c: nat, t: System)
    requires Lost(s, c) && Next(s, t)
    ensures Lost(t, c)
  {
    var a :| CanAct(s, a) && t == Act(s, a);
    StepKeeps(s, a);
    assert PlaceOk(s, c);
    if a == Step(c) { assert HoldsOk(s.holder, s.places[c].held, c, s.places[c].rest[0].m); }
  }

  /** A section that meets a mutex it holds never ends, whatever others do. */
  lemma {:induction false} ReentranceNeverReturns(s: System, c: nat)
    requires Reachable(s) && c < |s.places| && Reenters(s.places[c].held, s.places[c].rest)
    ensures !Returns(s, c)
  {
    ReachableHolds(s);
    forall t | Leads(Next, s, t) ensures Lost(t, c) {
      forall u, v | Lost(u, c) && Next(u, v) ensures Lost(v, c) { LostStays(u, c, v); }
      InvariantHolds(Next, u => Lost(u, c), s, t);
    }
  }

  /** Everybody but c is outside. */
  predicate Alone(s: System, c: nat) {
    c < |s.places| && forall d :: 0 <= d < |s.places| && d != c ==> s.places[d] == OUTSIDE
  }

  lemma {:induction false} AloneGoesOn(s: System, c: nat)
    requires Inv(s) && Alone(s, c) && s.places[c].rest != [] && !Reenters(s.places[c].held, s.places[c].rest)
    ensures CanAct(s, Step(c))
  {
    var op := s.places[c].rest[0];
    assert PlaceOk(s, c) && HoldsOk(s.holder, s.places[c].held, c, op.m);
    if op.Take? {
      var d := s.holder[op.m];
      assert d.Some? ==> PlaceOk(s, d.value) && HoldsOk(s.holder, s.places[d.value].held, d.value, op.m);
    }
  }

  lemma {:induction false} AloneComesOut(s: System, c: nat) returns (t: System)
    requires Inv(s) && Alone(s, c) && !Reenters(s.places[c].held, s.places[c].rest)
    ensures Leads(Next, s, t) && c < |t.places| && t.places[c] == OUTSIDE
    decreases |s.places[c].rest|
  {
    LeadsNowhere(Next, s);
    t := s;
    if s.places[c].rest == [] {
      assert PlaceOk(s, c);
    } else {
      AloneGoesOn(s, c);
      StepKeeps(s, Step(c));
      var u := Act(s, Step(c));
      LeadsOn(Next, s, s, u);
      t := AloneComesOut(u, c);
      LeadsThrough(Next, s, u, t);
    }
  }

  /** With nobody else in the way a section ends exactly when it never meets a mutex it holds. */
  lemma {:induction false} AloneReturnsUnlessReentrant(s: System, c: nat)
    requires Reachable(s) && Alone(s, c)
    ensures Returns(s, c) <==> !Reenters(s.places[c].held, s.places[c].rest)
  {
    ReachableHolds(s);
    if Reenters(s.places[c].held, s.places[c].rest) {
      ReentranceNeverReturns(s, c);
    } else {
      var t := AloneComesOut(s, c);
    }
  }

  /** The section of resource k in which resource j is taken once: a look for an interruption, or the end of
      a payload with one handle. */
  function Nested(k: nat, j: nat): seq<Op> { [Take(k), Take(j), Give(j), Give(k)] }

  lemma {:induction false} NestedIs(p: Topology, c: nat, k: nat, j: nat)
    requires k < |p.ranges| && j < |p.ranges| && Link(p, c, k, j)
    ensures Legal(p, c, [], Nested(k, j))
    ensures Reenters([], Nested(k, j)) <==> k == j
  {
    var n := Nested(k, j);
    assert n[1..] == [Take(j), Give(j), Give(k)] && n[1..][1..] == [Give(j), Give(k)];
    assert n[1..][1..][1..] == [Give(k)] && n[1..][1..][1..][1..] == [];
    assert [] + [k] == [k] && [k] + [j] == [k, j] && [k, j][..1] == [k] && [k][..0] == [];
    assert Legal(p, c, [], []) && Legal(p, c, [k], [Give(k)]) && Legal(p, c, [k, j], [Give(j), Give(k)]);
    assert Legal(p, c, [k], n[1..]);
    assert !Reenters([], []) && !Reenters([k], [Give(k)]) && !Reenters([k, j], [Give(j), Give(k)]);
  }

  /** Context c is about to look again, alone, in its wait in facility k, or alone in a section of facility k
      that destroys a payload with a handle of facility j: it comes out exactly when k and j are not the
      same.  The first is a Worker that dispatches to its own facility and waits there; the second needs no
      Worker and no wait, a cancelled Task that has another handle of the same facility is enough. */
  lemma {:induction false} OwnMutexNeverReturns(s: System, c: nat, k: nat, j: nat)
    requires Reachable(s) && Alone(s, c) && s.places[c] == Place([], Nested(k, j)) && Link(s.p, c, k, j)
    ensures Returns(s, c) <==> k != j
  {
    ReachableHolds(s);
    NestedIs(s.p, c, k, j);
    AloneReturnsUnlessReentrant(s, c);
  }

  lemma {:induction false} SectionBegins(p: Topology, c: nat, k: nat, j: nat) returns (s: System)
    requires Valid(p) && k < |p.ranges| && j < |p.ranges| && Link(p, c, k, j)
    ensures Reachable(s) && s.p == p && Alone(s, c) && s.places[c] == Place([], Nested(k, j))
  {
    var init := Init(p, c + 1);
    LeadsNowhere(Next, init);
    NestedIs(p, c, k, j);
    s := Act(init, Begin(c, Nested(k, j)));
    LeadsOn(Next, init, init, s);
  }

  /** Both happen: whenever a context may wait in the facility it is a Worker of, and whenever a payload of a
      facility has a handle of that facility, there is a run in which a context begins and never returns. */
  lemma {:induction false} OwnMutexHappens(p: Topology, c: nat, k: nat)
    requires Valid(p) && k < |p.ranges|
    requires ((c, k) in p.waits && Owner(p.ranges, c) == Some(k)) || (k, k) in p.owns
    ensures exists s: System :: s.p == p && Reachable(s) && Alone(s, c) && !Returns(s, c)
  {
    var s := SectionBegins(p, c, k, k);
    OwnMutexNeverReturns(s, c, k, k);
  }

  // ---------------------------------------------------------------- cycles

  /** Some context may take mutex j directly under mutex k. */
  ghost predicate Edge(p: Topology, k: nat, j: nat) { exists c: nat :: Link(p, c, k, j) }

  ghost predicate Walk(p: Topology, ks: seq<nat>) {
    |ks| > 1 && forall i :: 0 <= i < |ks| - 1 ==> Edge(p, ks[i], ks[i + 1])
  }

  ghost predicate WalkFromTo(p: Topology, ks: seq<nat>, k: nat, j: nat) {
    Walk(p, ks) && ks[0] == k && ks[|ks| - 1] == j
  }

  /** One or more edges lead from k to j. */
  ghost predicate Joined(p: Topology, k: nat, j: nat) { exists ks :: WalkFromTo(p, ks, k, j) }

  ghost predicate Cyclic(p: Topology) { exists k: nat :: Joined(p, k, k) }

  lemma {:induction false} JoinedThrough(p: Topology, k: nat, j: nat, m: nat)
    requires Joined(p, k, j) && Joined(p, j, m)
    ensures Joined(p, k, m)
  {
    var a :| WalkFromTo(p, a, k, j);
    var b :| WalkFromTo(p, b, j, m);
    var w := a + b[1..];
    forall i | 0 <= i < |w| - 1 ensures Edge(p, w[i], w[i + 1]) {
      if i < |a| - 1 { assert Edge(p, a[i], a[i + 1]); } else { assert Edge(p, b[i - |a| + 1], b[i - |a| + 1 + 1]); }
    }
    assert WalkFromTo(p, w, k, m);
  }

  /** The mutex that a member of a ring needs. */
  function Needs(s: System, c: nat): nat {
    if c < |s.places| && s.places[c].rest != [] then s.places[c].rest[0].m else 0
  }

  /** What is on the stack leads to what is taken next. */
  lemma {:induction false} StackJoins(p: Topology, d: nat, held: seq<nat>, i: nat, m: nat)
    requires Stacked(p, d, held) && i < |held| && Link(p, d, held[|held| - 1], m)
    ensures Joined(p, held[i], m)
    decreases |held| - i
  {
    if i == |held| - 1 {
      assert Edge(p, held[i], m) && WalkFromTo(p, [held[i], m], held[i], m);
    } else {
      var j := i + 1;
      assert Link(p, d, held[j - 1], held[j]);
      assert WalkFromTo(p, [held[i], held[j]], held[i], held[j]);
      StackJoins(p, d, held, j, m);
      JoinedThrough(p, held[i], held[j], m);
    }
  }

  /** From the mutex c needs edges lead to the one its holder needs. */
  lemma {:induction false} NeedJoined(s: System, ring: set<nat>, c: nat) returns (d: nat)
    requires Inv(s) && IsRing(s, ring) && c in ring && Caught(s, ring, c)
    ensures d in ring && Caught(s, ring, d) && Joined(s.p, Needs(s, c), Needs(s, d))
  {
    var m := Needs(s, c);
    d := s.holder[m].value;
    assert Caught(s, ring, d) && PlaceOk(s, d);
    var held := s.places[d].held;
    assert HoldsOk(s.holder, held, d, m);
    var i :| 0 <= i < |held| && held[i] == m;
    StackJoins(s.p, d, held, i, Needs(s, d));
  }

  /** n steps along a ring, from holder to holder. */
  lemma {:induction false} Orbit(s: System, ring: set<nat>, c: nat, n: nat) returns (o: seq<nat>)
    requires Inv(s) && IsRing(s, ring) && c in ring && Caught(s, ring, c)
    ensures |o| == n + 1 && o[0] == c
    ensures forall i :: 0 <= i < |o| ==> o[i] in ring && Caught(s, ring, o[i])
    ensures forall i :: 0 <= i < |o| - 1 ==> Joined(s.p, Needs(s, o[i]), Needs(s, o[i + 1]))
    decreases n
  {
    if n == 0 {
      o := [c];
    } else {
      var d := NeedJoined(s, ring, c);
      var rest := Orbit(s, ring, d, n - 1);
      o := [c] + rest;
    }
  }

  lemma {:induction false} OrbitJoined(s: System, o: seq<nat>, i: nat, j: nat)
    requires i < j < |o|
    requires forall i :: 0 <= i < |o| - 1 ==> Joined(s.p, Needs(s, o[i]), Needs(s, o[i + 1]))
    ensures Joined(s.p, Needs(s, o[i]), Needs(s, o[j]))
    decreases j
  {
    assert Joined(s.p, Needs(s, o[j - 1]), Needs(s, o[j - 1 + 1]));
    if i < j - 1 {
      OrbitJoined(s, o, i, j - 1);
      JoinedThrough(s.p, Needs(s, o[i]), Needs(s, o[j - 1]), Needs(s, o[j]));
    }
  }

  /** A ring goes along a cycle. */
  lemma {:induction false} RingIsCyclic(s: System, ring: set<nat>)
    requires Inv(s) && IsRing(s, ring)
    ensures Cyclic(s.p)
  {
    var c :| c in ring;
    assert Caught(s, ring, c);
    var o := Orbit(s, ring, c, |s.places|);
    var i, j := Repetition(o, |s.places|);
    OrbitJoined(s, o, i, j);
  }

  // From a cycle to a ring.

  /** A closed walk that meets no mutex twice. */
  ghost predicate IsCycle(p: Topology, ks: seq<nat>) {
    Walk(p, ks) && ks[0] == ks[|ks| - 1] && forall i, j :: 0 <= i < j < |ks| - 1 ==> ks[i] != ks[j]
  }

  lemma {:induction false} Shorten(p: Topology, ks: seq<nat>) returns (cycle: seq<nat>)
    requires Walk(p, ks) && ks[0] == ks[|ks| - 1]
    ensures IsCycle(p, cycle)
    decreases |ks|
  {
    if i, j :| 0 <= i < j < |ks| - 1 && ks[i] == ks[j] {
      var part := ks[i..j + 1];
      forall k | 0 <= k < |part| - 1 ensures Edge(p, part[k], part[k + 1]) { assert Edge(p, ks[i + k], ks[i + k + 1]); }
      cycle := Shorten(p, part);
    } else {
      cycle := ks;
    }
  }

  /** A number above every context that waits anywhere. */
  lemma {:induction false} Above(waits: set<(nat, nat)>) returns (n: nat)
    ensures forall c, k :: (c, k) in waits ==> c < n
  {
    n := 0;
    if waits != {} {
      var w :| w in waits;
      var m := Above(waits - {w});
      n := if w.0 < m then m else w.0 + 1;
      forall c, k | (c, k) in waits ensures c < n { assert (c, k) == w || (c, k) in waits - {w}; }
    }
  }

  /** The context that walks edge i of the cycle: any unused one when a payload makes the edge, otherwise a
      context that waits there. */
  ghost function Walker(p: Topology, ks: seq<nat>, n: nat, i: nat): (c: nat)
    requires i + 1 < |ks| && Edge(p, ks[i], ks[i + 1])
    ensures Link(p, c, ks[i], ks[i + 1])
    ensures if (ks[i], ks[i + 1]) in p.owns then c == n + i
            else (c, ks[i]) in p.waits && Owner(p.ranges, c) == Some(ks[i + 1])
  {
    if (ks[i], ks[i + 1]) in p.owns then n + i else var c: nat :| Link(p, c, ks[i], ks[i + 1]); c
  }

  /** The first i contexts hold the first i mutexes of the cycle and need the next one each; the others are
      outside. */
  ghost predicate Loaded(s: System, ks: seq<nat>, cs: seq<nat>, i: nat) {
    && i <= |cs| == |ks| - 1 && Reachable(s) && Inv(s)
    && (forall t :: 0 <= t < |cs| ==> cs[t] < |s.places|)
    && (forall t :: 0 <= t < i ==> s.places[cs[t]] == Place([ks[t]], [Take(ks[t + 1]), Give(ks[t + 1]), Give(ks[t])]))
    && (forall t :: i <= t < |cs| ==> s.places[cs[t]] == OUTSIDE)
    && (forall t :: i <= t < |cs| ==> ks[t] < |s.holder| && s.holder[ks[t]].None?)
  }

  lemma {:induction false} LoadOne(s: System, ks: seq<nat>, cs: seq<nat>, i: nat) returns (u: System)
    requires Loaded(s, ks, cs, i) && i < |cs| && IsCycle(s.p, ks)
    requires forall t :: 0 <= t < |cs| ==> Link(s.p, cs[t], ks[t], ks[t + 1])
    requires forall t, v :: 0 <= t < v < |cs| ==> cs[t] != cs[v]
    ensures u.p == s.p && Loaded(u, ks, cs, i + 1)
  {
    var c, k, j := cs[i], ks[i], ks[i + 1];
    NestedIs(s.p, c, k, j);
    var b := Begin(c, Nested(k, j));
    StepKeeps(s, b);
    var v := Act(s, b);
    u := Act(v, Step(c));
    StepKeeps(v, Step(c));
    var contexts :| Leads(Next, Init(s.p, contexts), s);
    LeadsOn(Next, Init(s.p, contexts), s, v);
    LeadsOn(Next, Init(s.p, contexts), v, u);
    assert u.places[c] == Place([k], [Take(j), Give(j), Give(k)]);
  }

  lemma {:induction false} LoadAll(s: System, ks: seq<nat>, cs: seq<nat>, i: nat) returns (u: System)
    requires Loaded(s, ks, cs, i) && IsCycle(s.p, ks)
    requires forall t :: 0 <= t < |cs| ==> Link(s.p, cs[t], ks[t], ks[t + 1])
    requires forall t, v :: 0 <= t < v < |cs| ==> cs[t] != cs[v]
    ensures u.p == s.p && Loaded(u, ks, cs, |cs|)
    decreases |cs| - i
  {
    u := s;
    if i < |cs| {
      u := LoadOne(s, ks, cs, i);
      u := LoadAll(u, ks, cs, i + 1);
    }
  }

  lemma {:induction false} LoadedHolds(s: System, ks: seq<nat>, cs: seq<nat>, v: nat)
    requires Loaded(s, ks, cs, |cs|) && v < |cs|
    ensures ks[v] < |s.holder| && s.holder[ks[v]] == Some(cs[v])
  {
    assert s.places[cs[v]] == Place([ks[v]], [Take(ks[v + 1]), Give(ks[v + 1]), Give(ks[v])]);
    assert PlaceOk(s, cs[v]);
    assert HoldsOk(s.holder, s.places[cs[v]].held, cs[v], ks[v]);
  }

  lemma {:induction false} LoadedIsARing(s: System, ks: seq<nat>, cs: seq<nat>)
    requires Loaded(s, ks, cs, |cs|) && IsCycle(s.p, ks)
    ensures IsRing(s, set t | 0 <= t < |cs| :: cs[t])
  {
    var ring := set t | 0 <= t < |cs| :: cs[t];
    assert cs[0] in ring;
    forall c | c in ring ensures Caught(s, ring, c) {
      var t :| 0 <= t < |cs| && cs[t] == c;
      var v := if t + 1 < |cs| then t + 1 else 0;
      assert ks[t + 1] == ks[v] && cs[v] in ring;
      LoadedHolds(s, ks, cs, v);
    }
  }

  lemma {:induction false} CycleMakesARing(p: Topology, ks: seq<nat>) returns (s: System, ring: set<nat>)
    requires Valid(p) && IsCycle(p, ks)
    ensures s.p == p && Reachable(s) && IsRing(s, ring)
  {
    var n := Above(p.waits);
    var cs := seq(|ks| - 1, i requires 0 <= i < |ks| - 1 => Walker(p, ks, n, i));
    WalkersDiffer(p, ks, n, cs);
    var init := Init(p, n + |ks|);
    LeadsNowhere(Next, init);
    InitHolds(p, n + |ks|);
    var u := LoadAll(init, ks, cs, 0);
    LoadedIsARing(u, ks, cs);
    s, ring := u, set t | 0 <= t < |cs| :: cs[t];
  }

  /** Different edges have different walkers: their owners differ, or their numbers. */
  lemma {:induction false} WalkersDiffer(p: Topology, ks: seq<nat>, n: nat, cs: seq<nat>)
    requires Valid(p) && IsCycle(p, ks) && |cs| == |ks| - 1
    requires forall c, k :: (c, k) in p.waits ==> c < n
    requires forall i :: 0 <= i < |cs| ==> Edge(p, ks[i], ks[i + 1]) && cs[i] == Walker(p, ks, n, i)
    ensures forall t :: 0 <= t < |cs| ==> cs[t] < n + |ks| && Link(p, cs[t], ks[t], ks[t + 1]) && ks[t] < |p.ranges|
    ensures forall t, v :: 0 <= t < v < |cs| ==> cs[t] != cs[v]
  {
    forall t | 0 <= t < |cs|
      ensures cs[t] < n + |ks| && Link(p, cs[t], ks[t], ks[t + 1]) && ks[t] < |p.ranges|
    {
      assert Edge(p, ks[t], ks[t + 1]) && cs[t] == Walker(p, ks, n, t);
    }
    forall t, v | 0 <= t < v < |cs| ensures cs[t] != cs[v] {
      assert cs[t] == Walker(p, ks, n, t) && cs[v] == Walker(p, ks, n, v);
      assert ks[t + 1] != ks[v + 1] by { if v + 1 == |ks| - 1 { assert ks[t + 1] != ks[0]; } }
    }
  }

  /** Some run of some number of contexts ends in a ring. */
  ghost predicate CanDeadlock(p: Topology) { exists s: System, ring :: s.p == p && Reachable(s) && IsRing(s, ring) }

  /** Deadlock is possible exactly when the relation between mutexes that waits and payloads make has a
      cycle. */
  lemma {:induction false} DeadlockIffCyclic(p: Topology)
    requires Valid(p)
    ensures CanDeadlock(p) <==> Cyclic(p)
  {
    if CanDeadlock(p) {
      var s: System, ring :| s.p == p && Reachable(s) && IsRing(s, ring);
      ReachableHolds(s);
      RingIsCyclic(s, ring);
    }
    if Cyclic(p) {
      var k: nat :| Joined(p, k, k);
      var ks :| WalkFromTo(p, ks, k, k);
      var cycle := Shorten(p, ks);
      var s, ring := CycleMakesARing(p, cycle);
    }
  }

  /** Every wait is in a facility ranked below the owner of the waiting context, and every payload is of a
      facility ranked below those of the handles in it. */
  ghost predicate Ordered(p: Topology, rank: nat -> nat) {
    && (forall c, k :: (c, k) in p.waits && Owner(p.ranges, c).Some? ==> rank(k) < rank(Owner(p.ranges, c).value))
    && (forall k, j :: (k, j) in p.owns ==> rank(k) < rank(j))
  }

  lemma {:induction false} WalkRises(p: Topology, rank: nat -> nat, ks: seq<nat>)
    requires Ordered(p, rank) && Walk(p, ks)
    ensures rank(ks[0]) < rank(ks[|ks| - 1])
    decreases |ks|
  {
    var n := |ks| - 1;
    assert Edge(p, ks[n - 1], ks[n - 1 + 1]);
    if n > 1 {
      forall i | 0 <= i < n - 1 ensures Edge(p, ks[..n][i], ks[..n][i + 1]) { assert Edge(p, ks[i], ks[i + 1]); }
      WalkRises(p, rank, ks[..n]);
    }
  }

  /** Whenever waits and payloads are ordered nothing deadlocks: in every state of every run in which a mutex
      is held, somebody who holds one can go on. */
  lemma {:induction false} OrderedNeverDeadlocks(s: System, rank: nat -> nat)
    requires Reachable(s) && Ordered(s.p, rank) && Holders(s) != {}
    ensures !CanDeadlock(s.p) && exists c :: c in Holders(s) && CanAct(s, Step(c))
  {
    forall k: nat ensures !Joined(s.p, k, k) {
      forall ks ensures !WalkFromTo(s.p, ks, k, k) { if Walk(s.p, ks) { WalkRises(s.p, rank, ks); } }
    }
    DeadlockIffCyclic(s.p);
    if forall c :: c in Holders(s) ==> !CanAct(s, Step(c)) { DeadlockIsARing(s); }
  }
}
