/** Bounded wait registrations and latched signals, as values.  The Task facility, the Dedicated
    Thread and the shutdown wait all register waiting contexts and wake them the same way. */
module Registrations {

  datatype Option<+T> = None | Some(value: T)

  datatype Slot<T> = Inactive | Active(target: T, context: nat)

  /** The lowest inactive registration slot, or the capacity when all are in use. */
  function FirstInactive<T>(slots: seq<Slot<T>>): (k: nat)
    ensures k <= |slots|
    ensures k < |slots| ==> slots[k].Inactive?
    ensures forall j :: 0 <= j < k ==> slots[j].Active?
  {
    if slots == [] || slots[0].Inactive? then 0 else 1 + FirstInactive(slots[1..])
  }

  function Register<T>(slots: seq<Slot<T>>, target: T, context: nat): seq<Slot<T>> {
    var k := FirstInactive(slots);
    if k < |slots| then slots[k := Active(target, context)] else slots
  }

  function Unregister<T>(slots: seq<Slot<T>>, k: nat): seq<Slot<T>> {
    if k < |slots| then slots[k := Inactive] else slots
  }

  predicate Matches<T(==)>(slots: seq<Slot<T>>, k: nat, target: T) {
    k < |slots| && slots[k].Active? && slots[k].target == target
  }

  /** Whether some registration names the target. */
  predicate Waited<T(==)>(slots: seq<Slot<T>>, target: T) {
    exists k :: 0 <= k < |slots| && Matches(slots, k, target)
  }

  /** The contexts registered for one target. */
  function Waiting<T(==)>(slots: seq<Slot<T>>, target: T): set<nat> {
    set k | 0 <= k < |slots| && Matches(slots, k, target) :: slots[k].context
  }

  /** latched holds the contexts whose one-bit signal is set; failed holds the contexts to which
      some notification has failed. */
  datatype Signals = Signals(latched: set<nat>, failed: set<nat>)

  predicate Reached(s: Signals, who: set<nat>) { who <= s.latched + s.failed }

  /** Notifications to some of the contexts in who happened, each with its own outcome. */
  predicate Grew(a: Signals, b: Signals, who: set<nat>) {
    a.latched <= b.latched <= a.latched + who && a.failed <= b.failed <= a.failed + who
  }

  /** From a to b notifications were only added. */
  predicate Notified(a: Signals, b: Signals) { a.latched <= b.latched && a.failed <= b.failed }

  /** What a caller learns about the notifications between a and b: all of them worked, or some wake has
      failed. */
  predicate Told(a: Signals, b: Signals, ok: bool) { if ok then b.failed == a.failed else b.failed != {} }

  /** Context c, which is in clear when it has looked for an interruption, found none and has not taken a
      signal since, is alert: when it was asked to stop after all, a signal is waiting for it. */
  predicate Alerted(asked: bool, s: Signals, clear: set<nat>, c: nat) {
    c in clear && asked ==> c in s.latched + s.failed
  }
}
