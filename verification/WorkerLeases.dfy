/** The Workers of one facility: a contiguous range of managed contexts, one availability bit each. */
module WorkerLeases {
  import opened Registrations
  import opened TaskModel
  import opened BoundedSets

  class WorkerLeaseScheduler {
    const first: nat
    const available: BoundedIndexSet

    constructor (workers: nat, first: nat)
      ensures this.first == first && fresh(available) && fresh(available.bits) && available.bits.Length == workers
      ensures forall i :: 0 <= i < workers ==> !available.bits[i]
    {
      this.first := first;
      available := new BoundedIndexSet(workers);
    }

    predicate IsWorkerContext(context: nat) { first <= context < first + available.bits.Length }

    method MarkAvailable(context: nat) returns (inRange: bool)
      modifies available.bits
      ensures inRange <==> IsWorkerContext(context)
      ensures available.bits[..] ==
        if inRange then old(available.bits[..])[context - first := true] else old(available.bits[..])
    {
      if !IsWorkerContext(context) { return false; }
      available.bits[context - first] := true;
      return true;
    }

    /** Reserves one given Worker when it is in range and available. */
    method TryClaimSpecific(context: nat) returns (claimed: bool)
      modifies available.bits
      ensures claimed <==> IsWorkerContext(context) && old(available.bits[..])[context - first]
      ensures available.bits[..] ==
        if claimed then old(available.bits[..])[context - first := false] else old(available.bits[..])
    {
      if !IsWorkerContext(context) || !available.bits[context - first] { return false; }
      available.bits[context - first] := false;
      return true;
    }

    /** Reserves the lowest available Worker. */
    method TryClaimAvailable() returns (claimed: Option<nat>)
      modifies available.bits
      ensures var k := FirstSet(old(available.bits[..]));
        && claimed == (if k < available.bits.Length then Some(first + k) else None)
        && available.bits[..] == if k < available.bits.Length then old(available.bits[..])[k := false]
                                 else old(available.bits[..])
    {
      var found := available.FindFirstSet();
      if found.None? { return None; }
      available.bits[found.value] := false;
      return Some(first + found.value);
    }

    method IsAnyAvailable() returns (any: bool)
      ensures any <==> FirstSet(available.bits[..]) < available.bits.Length
    {
      var found := available.FindFirstSet();
      any := found.Some?;
    }

    method AvailableCount() returns (n: nat)
      ensures n == Count(available.bits[..])
    {
      n := available.CountSet();
    }

    method InUseCount() returns (n: nat)
      ensures n == available.bits.Length - Count(available.bits[..])
    {
      var free := AvailableCount();
      n := available.bits.Length - free;
    }
  }

  /** Claiming an available Worker moves one from available to in use; giving a claimed one back
      restores the availability exactly. */
  lemma {:induction false} ClaimConserves(bits: seq<bool>, k: nat)
    requires k < |bits| && bits[k]
    ensures Count(bits[k := false]) == Count(bits) - 1
    ensures bits[k := false][k := true] == bits
  {
    CountUpdate(bits, k, false);
  }
}
