/** Runs of any transition system: finite sequences of states, each following from the one before. */
module Runs {

  ghost predicate IsRun<S(!new)>(next: (S, S) -> bool, states: seq<S>) {
    |states| > 0 && forall i :: 0 <= i < |states| - 1 ==> next(states[i], states[i + 1])
  }

  ghost predicate RunFromTo<S(!new)>(next: (S, S) -> bool, states: seq<S>, s: S, t: S) {
    IsRun(next, states) && states[0] == s && states[|states| - 1] == t
  }

  /** Some run leads from s to t. */
  ghost predicate Leads<S(!new)>(next: (S, S) -> bool, s: S, t: S) { exists states :: RunFromTo(next, states, s, t) }

  lemma {:induction false} LeadsNowhere<S(!new)>(next: (S, S) -> bool, s: S)
    ensures Leads(next, s, s)
  {
    assert RunFromTo(next, [s], s, s);
  }

  lemma {:induction false} LeadsOn<S(!new)>(next: (S, S) -> bool, s: S, t: S, u: S)
    requires Leads(next, s, t) && next(t, u)
    ensures Leads(next, s, u)
  {
    var states :| RunFromTo(next, states, s, t);
    assert RunFromTo(next, states + [u], s, u);
  }

  lemma {:induction false} LeadsThrough<S(!new)>(next: (S, S) -> bool, s: S, t: S, u: S)
    requires Leads(next, s, t) && Leads(next, t, u)
    ensures Leads(next, s, u)
  {
    var p :| RunFromTo(next, p, s, t);
    var q :| RunFromTo(next, q, t, u);
    var r := p + q[1..];
    forall i | 0 <= i < |r| - 1 ensures next(r[i], r[i + 1]) {
      if i < |p| - 1 { assert next(p[i], p[i + 1]); } else { assert next(q[i - |p| + 1], q[i - |p| + 1 + 1]); }
    }
    assert RunFromTo(next, r, s, u);
  }

  /** What holds at the beginning and is kept by every step holds at the end of every run. */
  lemma {:induction false} InvariantHolds<S(!new)>(next: (S, S) -> bool, inv: S -> bool, s: S, t: S)
    requires Leads(next, s, t) && inv(s)
    requires forall a, b :: inv(a) && next(a, b) ==> inv(b)
    ensures inv(t)
  {
    var states :| RunFromTo(next, states, s, t);
    InvariantAlong(next, inv, states, |states| - 1);
  }

  lemma {:induction false} InvariantAlong<S(!new)>(next: (S, S) -> bool, inv: S -> bool, states: seq<S>, n: nat)
    requires IsRun(next, states) && n < |states| && inv(states[0])
    requires forall a, b :: inv(a) && next(a, b) ==> inv(b)
    ensures inv(states[n])
  {
    if n > 0 {
      InvariantAlong(next, inv, states, n - 1);
      assert next(states[n - 1], states[n - 1 + 1]);
    }
  }
}
