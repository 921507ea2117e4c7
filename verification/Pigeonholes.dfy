/** Counting: n different numbers below n leave none out. */
module Pigeonholes {

  function Below(n: nat): (r: set<nat>)
    ensures forall x: nat :: x in r <==> x < n
  {
    if n == 0 then {} else Below(n - 1) + {n - 1}
  }

  lemma {:induction false} BelowSize(n: nat)
    ensures |Below(n)| == n
  {
    if n > 0 {
      BelowSize(n - 1);
    }
  }

  function Prefix(a: seq<nat>, k: nat): (r: set<nat>)
    requires k <= |a|
    ensures forall x :: x in r <==> exists j :: 0 <= j < k && a[j] == x
  {
    if k == 0 then {} else Prefix(a, k - 1) + {a[k - 1]}
  }

  lemma {:induction false} PrefixSize(a: seq<nat>, k: nat)
    requires k <= |a| && forall i, j :: 0 <= i < j < |a| ==> a[i] != a[j]
    ensures |Prefix(a, k)| == k
  {
    if k > 0 { PrefixSize(a, k - 1); }
  }

  /** n different numbers below n are all the numbers below n. */
  lemma {:induction false} Pigeonhole(a: seq<nat>, n: nat, c: nat)
    requires |a| == n && c < n && forall j :: 0 <= j < n ==> a[j] < n
    requires forall i, j :: 0 <= i < j < n ==> a[i] != a[j]
    ensures c in a
  {
    PrefixSize(a, n);
    BelowSize(n);
    SubsetSize(Prefix(a, n) + {c}, Below(n));
  }

  lemma {:induction false} SubsetSize(a: set<nat>, b: set<nat>)
    requires a <= b
    ensures |a| <= |b|
    decreases |a|
  {
    if a != {} {
      var x :| x in a;
      SubsetSize(a - {x}, b - {x});
    }
  }

  /** More than n numbers below n repeat. */
  lemma {:induction false} Repetition(a: seq<nat>, n: nat) returns (i: nat, j: nat)
    requires |a| > n && forall k :: 0 <= k < |a| ==> a[k] < n
    ensures i < j < |a| && a[i] == a[j]
  {
    if forall i, j :: 0 <= i < j < |a| ==> a[i] != a[j] {
      PrefixSize(a, |a|);
      BelowSize(n);
      SubsetSize(Prefix(a, |a|), Below(n));
      assert false;
    }
    i, j :| 0 <= i < j < |a| && a[i] == a[j];
  }
}
