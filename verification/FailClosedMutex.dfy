/** The fail-closed ordinary mutex: a native mutex taken in bounded slices, and a sticky failure
    latch under a lock of its own that every caller reads after it has the native mutex. */
module FailClosedMutex {
  import opened Registrations
  import opened Runs

  // ---------------------------------------------------------------- the wait slice

  const TARGET_NANOSECONDS: nat := 1_000_000
  const UINT64_MAX: nat := 0xFFFF_FFFF_FFFF_FFFF

  /** The finite native wait: the target rounded up to the resolution of the native mutex. */
  function WaitSlice(resolution: nat): nat
    requires resolution > 0
  {
    if resolution >= TARGET_NANOSECONDS then resolution
    else ((TARGET_NANOSECONDS + resolution - 1) / resolution) * resolution
  }

  function Ticks(k: nat, resolution: nat): nat { k * resolution }

  /** The slice is a whole number of ticks of the native clock, reaches the target, is the least such
      number, and rounding up to it stays inside 64 bits. */
  lemma WaitSliceIsLeastMultiple(resolution: nat, k: nat) returns (n: nat)
    requires 0 < resolution <= UINT64_MAX
    ensures WaitSlice(resolution) == Ticks(n, resolution)
    ensures TARGET_NANOSECONDS <= WaitSlice(resolution) <= UINT64_MAX
    ensures Ticks(k, resolution) >= TARGET_NANOSECONDS ==> WaitSlice(resolution) <= Ticks(k, resolution)
  {
    n := if resolution >= TARGET_NANOSECONDS then 1 else (TARGET_NANOSECONDS + resolution - 1) / resolution;
    if resolution >= TARGET_NANOSECONDS {
      if k > 0 { MulMonotone(1, k, resolution); }
    } else {
      assert n * resolution <= TARGET_NANOSECONDS + resolution - 1 < n * resolution + resolution;
      if k < n { MulMonotone(k + 1, n, resolution); } else { MulMonotone(n, k, resolution); }
    }
  }

  lemma MulMonotone(a: nat, b: nat, r: nat)
    requires a <= b
    ensures a * r <= b * r
  {
    assert b * r == a * r + (b - a) * r;
  }

  // ---------------------------------------------------------------- one caller, sequentially

  datatype AcquireResult = Acquired | FailedState | ProviderFailure

  datatype NativeAcquire = NativeAcquired | NativeTimedOut | NativeFailure

  /** What the platform and the other callers do during one pass of the acquisition loop: the native
      outcome, whether somebody has latched failure when this caller looks, and whether giving the
      native mutex back works. */
  datatype Pass = Pass(native: NativeAcquire, latchedAtCheck: bool, releaseWorks: bool)

  /** How a caller that got past its first look ends; None while every slice so far timed out. */
  function Outcome(passes: seq<Pass>): Option<AcquireResult> {
    if passes == [] then None
    else
      var p := passes[0];
      match p.native
      case NativeAcquired =>
        Some(if !p.latchedAtCheck then Acquired else if p.releaseWorks then FailedState else ProviderFailure)
      case NativeTimedOut => if p.latchedAtCheck then Some(FailedState) else Outcome(passes[1..])
      case NativeFailure => Some(ProviderFailure)
  }

  /** The caller itself latches failure exactly when the platform failed it. */
  predicate Marks(result: AcquireResult) { result.ProviderFailure? }

  /** The slice timed out and nobody has latched failure: the caller tries again. */
  predicate TriesAgain(p: Pass) { p.native.NativeTimedOut? && !p.latchedAtCheck }

  predicate TriesUntil(passes: seq<Pass>, k: nat) { k < |passes| && forall j :: 0 <= j < k ==> TriesAgain(passes[j]) }

  /** Pass k got the native mutex and read an unset latch, and every pass before it timed out. */
  predicate AcquiredIn(passes: seq<Pass>, k: nat) {
    TriesUntil(passes, k) && passes[k].native.NativeAcquired? && !passes[k].latchedAtCheck
  }

  /** Pass k read a set latch, and gave the native mutex back if it had got it. */
  predicate ClosedIn(passes: seq<Pass>, k: nat) {
    && TriesUntil(passes, k) && passes[k].latchedAtCheck
    && (passes[k].native.NativeTimedOut? || (passes[k].native.NativeAcquired? && passes[k].releaseWorks))
  }

  /** In pass k the platform failed the caller: in the acquisition, or in giving the mutex back. */
  predicate BrokenIn(passes: seq<Pass>, k: nat) {
    && TriesUntil(passes, k)
    && (passes[k].native.NativeFailure?
        || (passes[k].native.NativeAcquired? && passes[k].latchedAtCheck && !passes[k].releaseWorks))
  }

  /** One pass at most ends the loop, and in one way only; so the answer is determined by the passes. */
  lemma {:induction false} PassesEndOneWay(passes: seq<Pass>, j: nat, k: nat)
    requires AcquiredIn(passes, j) || ClosedIn(passes, j) || BrokenIn(passes, j)
    requires AcquiredIn(passes, k) || ClosedIn(passes, k) || BrokenIn(passes, k)
    ensures j == k && (AcquiredIn(passes, j) ==> !ClosedIn(passes, j) && !BrokenIn(passes, j))
    ensures ClosedIn(passes, j) ==> !BrokenIn(passes, j)
  {
    assert j < k ==> TriesAgain(passes[j]);
    assert k < j ==> TriesAgain(passes[k]);
  }

  class FailClosedOrdinaryMutex {
    var failed: bool

    constructor ()
      ensures !failed
    {
      failed := false;
    }

    method MarkFailed()
      modifies this
      ensures failed
    {
      failed := true;
    }

    /** The acquisition loop over a finite prefix of passes; the latch may be set by others between
        any two looks, and nobody ever clears it. */
    method Acquire(passes: seq<Pass>) returns (result: Option<AcquireResult>)
      modifies this
      ensures old(failed) ==> result == Some(FailedState)
      ensures !old(failed) ==> result == Outcome(passes)
      ensures old(failed) ==> failed
      ensures result.Some? && Marks(result.value) ==> failed
      ensures result == Some(Acquired) ==> exists k :: 0 <= k < |passes| && AcquiredIn(passes, k)
      ensures !old(failed) && result == Some(FailedState) ==> exists k :: 0 <= k < |passes| && ClosedIn(passes, k)
      ensures result == Some(ProviderFailure) ==> exists k :: 0 <= k < |passes| && BrokenIn(passes, k)
      ensures result.None? ==> forall k :: 0 <= k < |passes| ==> TriesAgain(passes[k])
    {
      if failed { return Some(FailedState); }
      var k := 0;
      while k < |passes|
        invariant k <= |passes| && Outcome(passes) == Outcome(passes[k..])
        invariant forall j :: 0 <= j < k ==> TriesAgain(passes[j])
      {
        assert passes[k..][1..] == passes[k + 1..];
        var p := passes[k];
        if p.latchedAtCheck { failed := true; }
        match p.native {
          case NativeAcquired =>
            if !p.latchedAtCheck {
              assert AcquiredIn(passes, k);
              return Some(Acquired);
            }
            if !p.releaseWorks {
              assert BrokenIn(passes, k);
              MarkFailed();
              return Some(ProviderFailure);
            }
            assert ClosedIn(passes, k);
            return Some(FailedState);
          case NativeTimedOut =>
            if p.latchedAtCheck {
              assert ClosedIn(passes, k);
              return Some(FailedState);
            }
          case NativeFailure =>
            assert BrokenIn(passes, k);
            MarkFailed();
            return Some(ProviderFailure);
        }
        k := k + 1;
      }
      return None;
    }
  }

  // ---------------------------------------------------------------- any number of callers

  /** Where a caller stands.  Checking and GivingBack hold the native mutex; Holding is between an
      Acquired result and the release; Marking is about to set the latch. */
  datatype Stage =
    | Outside
    | Trying
    | Checking
    | GivingBack
    | Rechecking
    | Marking
    | Holding
    | Releasing(sawFailed: bool)
    | LastLook(sawFailed: bool)

  /** One answer Acquired: whom it was given to, and who held the native mutex then. */
  datatype Grant = Grant(caller: nat, holder: Option<nat>)

  /** acquired lists the answers Acquired in the order they were given; released the callers that were
      told Released. */
  datatype System = System(
    failed: bool,
    native: Option<nat>,
    stages: seq<Stage>,
    acquired: seq<Grant>,
    released: seq<nat>)

  predicate HoldsNative(stage: Stage) {
    stage.Checking? || stage.GivingBack? || stage.Holding? || stage.Releasing?
  }

  datatype Action =
    | BeginAcquire(c: nat)
    | NativeAcquire(c: nat, outcome: NativeAcquire)
    | Check(c: nat)
    | GiveBack(c: nat, works: bool)
    | Recheck(c: nat)
    | Mark(c: nat)
    | BeginRelease(c: nat)
    | NativeRelease(c: nat, works: bool)
    | FinishRelease(c: nat)

  predicate CanAct(s: System, a: Action) {
    a.c < |s.stages| &&
    match a
    case BeginAcquire(c) => s.stages[c].Outside?
    case NativeAcquire(c, outcome) => s.stages[c].Trying? && (outcome.NativeAcquired? ==> s.native.None?)
    case Check(c) => s.stages[c].Checking?
    case GiveBack(c, _) => s.stages[c].GivingBack?
    case Recheck(c) => s.stages[c].Rechecking?
    case Mark(c) => s.stages[c].Marking?
    case BeginRelease(c) => s.stages[c].Holding?
    case NativeRelease(c, _) => s.stages[c].Releasing?
    case FinishRelease(c) => s.stages[c].LastLook?
  }

  function Set(s: System, c: nat, stage: Stage): System
    requires c < |s.stages|
  {
    s.(stages := s.stages[c := stage])
  }

  function Act(s: System, a: Action): System
    requires CanAct(s, a)
  {
    match a
    case BeginAcquire(c) => if s.failed then s else Set(s, c, Trying)
    case NativeAcquire(c, outcome) =>
      (match outcome
       case NativeAcquired => Set(s, c, Checking).(native := Some(c))
       case NativeTimedOut => Set(s, c, Rechecking)
       case NativeFailure => Set(s, c, Marking))
    case Check(c) =>
      if s.failed then Set(s, c, GivingBack) else Set(s, c, Holding).(acquired := s.acquired + [Grant(c, s.native)])
    case GiveBack(c, works) => Set(s, c, if works then Outside else Marking).(native := None)
    case Recheck(c) => Set(s, c, if s.failed then Outside else Trying)
    case Mark(c) => Set(s, c, Outside).(failed := true)
    case BeginRelease(c) => Set(s, c, Releasing(s.failed))
    case NativeRelease(c, works) =>
      Set(s, c, if works then LastLook(s.stages[c].sawFailed) else Marking).(native := None)
    case FinishRelease(c) =>
      if s.stages[c].sawFailed || s.failed then Set(s, c, Outside)
      else Set(s, c, Outside).(released := s.released + [c])
  }

  ghost predicate StageOk(s: System, c: nat) {
    c < |s.stages| ==>
      && (HoldsNative(s.stages[c]) <==> s.native == Some(c))
      && (s.stages[c].Releasing? && s.stages[c].sawFailed ==> s.failed)
      && (s.stages[c].LastLook? && s.stages[c].sawFailed ==> s.failed)
  }

  ghost predicate Inv(s: System) {
    && (forall c: nat :: StageOk(s, c))
    && (forall k :: 0 <= k < |s.acquired| ==> s.acquired[k].holder == Some(s.acquired[k].caller))
  }

  ghost predicate Next(s: System, t: System) { exists a :: CanAct(s, a) && t == Act(s, a) }

  function Init(callers: nat): System { System(false, None, seq(callers, i => Outside), [], []) }

  ghost predicate Reachable(s: System) { exists callers :: Leads(Next, Init(callers), s) }

  lemma {:induction false} StepKeeps(s: System, a: Action)
    requires Inv(s) && CanAct(s, a)
    ensures Inv(Act(s, a))
  {
    var t := Act(s, a);
    assert StageOk(s, a.c);
    forall c: nat ensures StageOk(t, c) { assert StageOk(s, c); }
  }

  lemma {:induction false} ReachableHolds(s: System)
    requires Reachable(s)
    ensures Inv(s)
  {
    var callers :| Leads(Next, Init(callers), s);
    forall a, b | Inv(a) && Next(a, b) ensures Inv(b) { NextKeeps(a, b); }
    InvariantHolds(Next, Inv, Init(callers), s);
  }

  lemma {:induction false} NextKeeps(s: System, t: System)
    requires Inv(s) && Next(s, t)
    ensures Inv(t)
  {
    var a :| CanAct(s, a) && t == Act(s, a);
    StepKeeps(s, a);
  }

  /** Mutual exclusion: at most one caller is between an Acquired result and its release, or checks the
      latch with the native mutex in hand. */
  lemma {:induction false} OneHolder(s: System, b: nat, c: nat)
    requires Reachable(s) && b < |s.stages| && c < |s.stages|
    requires HoldsNative(s.stages[b]) && HoldsNative(s.stages[c])
    ensures b == c
  {
    ReachableHolds(s);
    assert StageOk(s, b) && StageOk(s, c);
  }

  /** Every caller that was ever told Acquired held the native mutex then, and the latch it read was
      unset; Released is answered only when the latch was unset before and after the native release. */
  lemma {:induction false} AcquiredReadUnsetLatch(s: System, a: Action)
    requires Reachable(s) && CanAct(s, a)
    ensures forall k :: 0 <= k < |s.acquired| ==> s.acquired[k].holder == Some(s.acquired[k].caller)
    ensures Act(s, a).acquired != s.acquired ==>
      !s.failed && HoldsNative(s.stages[a.c]) && Act(s, a).acquired == s.acquired + [Grant(a.c, Some(a.c))]
    ensures Act(s, a).released != s.released ==>
      !s.failed && !s.stages[a.c].sawFailed && Act(s, a).released == s.released + [a.c]
  {
    ReachableHolds(s);
    assert StageOk(s, a.c);
  }

  /** t is s, in which the latch was set, some time later: the latch is still set, nobody was told
      Acquired or Released, and who holds the mutex held it already. */
  ghost predicate ClosedSince(s: System, t: System) {
    && t.failed && t.acquired == s.acquired && t.released == s.released && |t.stages| == |s.stages|
    && forall c :: 0 <= c < |s.stages| && t.stages[c].Holding? ==> s.stages[c].Holding?
  }

  lemma {:induction false} StaysClosed(s: System, t: System, u: System)
    requires ClosedSince(s, t) && Next(t, u)
    ensures ClosedSince(s, u)
  {
    var a :| CanAct(t, a) && u == Act(t, a);
  }

  /** The latch is sticky and the mutex fails closed: from the moment the latch is set it stays set, in
      every continuation of the run and for any number of callers, and nobody is told Acquired or
      Released any more. */
  lemma {:induction false} FailClosed(s: System, t: System)
    requires s.failed && Leads(Next, s, t)
    ensures ClosedSince(s, t)
  {
    forall a, b | ClosedSince(s, a) && Next(a, b) ensures ClosedSince(s, b) { StaysClosed(s, a, b); }
    InvariantHolds(Next, u => ClosedSince(s, u), s, t);
  }

  /** Where caller c stands in t when its acquisition, begun in s, has come to this. */
  predicate EndsAs(s: System, t: System, c: nat, result: Option<AcquireResult>) {
    && c < |t.stages|
    && match result
       case None => t.stages[c].Trying? && t.acquired == s.acquired
       case Some(Acquired) => t.stages[c].Holding? && t.acquired == s.acquired + [Grant(c, Some(c))]
       case Some(_) => t.stages[c].Outside? && t.failed && t.acquired == s.acquired
  }

  /** What the acquisition loop of one caller comes to is what a run of all callers comes to: c goes
      through the passes while some other caller d is about to latch failure. */
  lemma {:induction false} AcquireIsARun(s: System, c: nat, d: nat, passes: seq<Pass>) returns (t: System)
    requires c < |s.stages| && s.stages[c].Trying? && s.native.None? && !s.failed
    requires d < |s.stages| && s.stages[d].Marking?
    ensures Leads(Next, s, t) && EndsAs(s, t, c, Outcome(passes))
    decreases |passes|
  {
    LeadsNowhere(Next, s);
    if passes == [] { return s; }
    var p := passes[0];
    var u := Act(s, NativeAcquire(c, p.native));
    LeadsOn(Next, s, s, u);
    if p.latchedAtCheck {
      LeadsOn(Next, s, u, Act(u, Mark(d)));
      u := Act(u, Mark(d));
    }
    match p.native
    case NativeAcquired =>
      t := Act(u, Check(c));
      LeadsOn(Next, s, u, t);
      if p.latchedAtCheck { t := GivesBack(s, t, c, p.releaseWorks); }
    case NativeTimedOut =>
      t := Act(u, Recheck(c));
      LeadsOn(Next, s, u, t);
      if !p.latchedAtCheck {
        var v := t;
        t := AcquireIsARun(v, c, d, passes[1..]);
        LeadsThrough(Next, s, v, t);
      }
    case NativeFailure =>
      t := Act(u, Mark(c));
      LeadsOn(Next, s, u, t);
  }

  lemma {:induction false} GivesBack(s: System, u: System, c: nat, works: bool) returns (t: System)
    requires Leads(Next, s, u) && c < |u.stages| && u.stages[c].GivingBack? && u.failed
    ensures Leads(Next, s, t) && c < |t.stages| && t.stages[c].Outside? && t.failed && t.acquired == u.acquired
  {
    t := Act(u, GiveBack(c, works));
    LeadsOn(Next, s, u, t);
    if !works {
      LeadsOn(Next, s, t, Act(t, Mark(c)));
      t := Act(t, Mark(c));
    }
  }
}
