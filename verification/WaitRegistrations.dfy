/** Targeted wakes and the bounded registration sets that say whom to wake. */
module WaitRegistrations {
  import opened Registrations

  /** One latched signal per managed context.  A wake either latches the context's signal or fails;
      which of the two is up to the platform. */
  class ManagedContextRouter {
    var signals: Signals

    constructor ()
      ensures signals == Signals({}, {})
    {
      signals := Signals({}, {});
    }

    method Wake(context: nat) returns (signaled: bool)
      modifies this
      ensures signals == if signaled then old(signals).(latched := old(signals).latched + {context})
                         else old(signals).(failed := old(signals).failed + {context})
    {
      signaled := *;
      if signaled {
        signals := signals.(latched := signals.latched + {context});
      } else {
        signals := signals.(failed := signals.failed + {context});
      }
    }
  }

  /** How many of the first n slots are registered for the target. */
  function Matching<T(==)>(slots: seq<Slot<T>>, target: T, n: nat): (count: nat)
    requires n <= |slots|
    ensures count <= n
  {
    if n == 0 then 0 else Matching(slots, target, n - 1) + (if Matches(slots, n - 1, target) then 1 else 0)
  }

  function ActiveBelow<T>(slots: seq<Slot<T>>, n: nat): (count: nat)
    requires n <= |slots|
    ensures count <= n
  {
    if n == 0 then 0 else ActiveBelow(slots, n - 1) + (if slots[n - 1].Active? then 1 else 0)
  }

  /** Nobody waits for the target exactly when the count says none. */
  lemma {:induction false} MatchingIsWaited<T>(slots: seq<Slot<T>>, target: T, n: nat)
    requires n <= |slots|
    ensures Matching(slots, target, n) == 0 <==> forall k :: 0 <= k < n ==> !Matches(slots, k, target)
  {
    if n > 0 { MatchingIsWaited(slots, target, n - 1); }
  }

  lemma {:induction false} FirstInactiveIs<T>(slots: seq<Slot<T>>, k: nat)
    requires k <= |slots| && (k < |slots| ==> slots[k].Inactive?) && forall j :: 0 <= j < k ==> slots[j].Active?
    ensures FirstInactive(slots) == k
  {
  }

  /** The contexts registered for the target in the first n slots. */
  function WaitingBelow<T(==)>(slots: seq<Slot<T>>, target: T, n: nat): (who: set<nat>)
    requires n <= |slots|
    ensures n == |slots| ==> who == Waiting(slots, target)
  {
    set k | 0 <= k < n && Matches(slots, k, target) :: slots[k].context
  }

  lemma {:induction false} WaitingStep<T>(slots: seq<Slot<T>>, target: T, n: nat)
    requires n < |slots|
    ensures WaitingBelow(slots, target, n + 1) ==
      WaitingBelow(slots, target, n) + (if Matches(slots, n, target) then {slots[n].context} else {})
  {
    if Matches(slots, n, target) { assert slots[n].context in WaitingBelow(slots, target, n + 1); }
    forall c | c in WaitingBelow(slots, target, n) ensures c in WaitingBelow(slots, target, n + 1) {
      var k :| 0 <= k < n && Matches(slots, k, target) && slots[k].context == c;
    }
  }

  class RegistrationSet<T(==)> {
    const slots: array<Slot<T>>

    constructor (capacity: nat)
      ensures fresh(this) && fresh(slots) && slots.Length == capacity
      ensures forall k :: 0 <= k < capacity ==> slots[k].Inactive?
    {
      slots := new Slot<T>[capacity](k => Inactive);
    }

    /** Publishes a registration in the first inactive slot. */
    method Register(target: T, context: nat) returns (index: Option<nat>)
      modifies slots
      ensures slots[..] == Registrations.Register(old(slots[..]), target, context)
      ensures var k := FirstInactive(old(slots[..])); index == if k < slots.Length then Some(k) else None
    {
      var k := 0;
      while k < slots.Length
        invariant k <= slots.Length && forall j :: 0 <= j < k ==> slots[j].Active?
        invariant slots[..] == old(slots[..])
      {
        if slots[k].Inactive? {
          FirstInactiveIs(slots[..], k);
          slots[k] := Slot.Active(target, context);
          return Some(k);
        }
        k := k + 1;
      }
      FirstInactiveIs(slots[..], k);
      return None;
    }

    method Unregister(k: nat)
      requires k < slots.Length
      modifies slots
      ensures slots[..] == Registrations.Unregister(old(slots[..]), k)
    {
      slots[k] := Inactive;
    }

    method ActiveCount() returns (count: nat)
      ensures count == ActiveBelow(slots[..], slots.Length)
    {
      count := 0;
      var k := 0;
      while k < slots.Length
        invariant k <= slots.Length && count == ActiveBelow(slots[..], k)
      {
        if slots[k].Active? { count := count + 1; }
        k := k + 1;
      }
    }

    method MatchingCount(target: T) returns (count: nat)
      ensures count == Matching(slots[..], target, slots.Length)
      ensures count == 0 <==> !Waited(slots[..], target)
    {
      count := 0;
      var k := 0;
      while k < slots.Length
        invariant k <= slots.Length && count == Matching(slots[..], target, k)
      {
        if slots[k].Active? && slots[k].target == target { count := count + 1; }
        k := k + 1;
      }
      MatchingIsWaited(slots[..], target, slots.Length);
    }

    /** Visits every active registration and wakes the contexts waiting for the target; the outcome
        is good only if every wake was. */
    method WakeMatching(target: T, router: ManagedContextRouter) returns (signaled: bool)
      modifies router
      ensures Reached(router.signals, Waiting(slots[..], target))
      ensures Grew(old(router.signals), router.signals, Waiting(slots[..], target))
      ensures if signaled then router.signals.failed == old(router.signals).failed else router.signals.failed != {}
      ensures signaled ==> Waiting(slots[..], target) <= router.signals.latched
    {
      signaled := true;
      var k := 0;
      while k < slots.Length
        invariant k <= slots.Length
        invariant Reached(router.signals, WaitingBelow(slots[..], target, k))
        invariant Grew(old(router.signals), router.signals, WaitingBelow(slots[..], target, k))
        invariant if signaled then router.signals.failed == old(router.signals).failed else router.signals.failed != {}
        invariant signaled ==> WaitingBelow(slots[..], target, k) <= router.signals.latched
      {
        WaitingStep(slots[..], target, k);
        if slots[k].Active? && slots[k].target == target {
          var ok := router.Wake(slots[k].context);
          signaled := signaled && ok;
        }
        k := k + 1;
      }
    }
  }
}
