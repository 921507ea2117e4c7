/** The bounded containers a facility owns: an index set with one bit per member, the intrusive FIFO
    over the scratch links of the Task records, and the registration set of a wait. */
module BoundedSets {
  import opened Registrations
  import opened TaskModel
  import opened CompactIndex
  import opened TaskRecords

  // ---------------------------------------------------------------- index set

  function Count(bits: seq<bool>): (n: nat)
    ensures n <= |bits|
  {
    if bits == [] then 0 else (if bits[0] then 1 else 0) + Count(bits[1..])
  }

  lemma {:induction false} CountSnoc(bits: seq<bool>, b: bool)
    ensures Count(bits + [b]) == Count(bits) + (if b then 1 else 0)
  {
    if bits == [] {
      assert [b][1..] == [];
    } else {
      assert (bits + [b])[1..] == bits[1..] + [b];
      CountSnoc(bits[1..], b);
    }
  }

  /** Setting or clearing one bit moves the count by one exactly when the bit changes. */
  lemma {:induction false} CountUpdate(bits: seq<bool>, i: nat, b: bool)
    requires i < |bits|
    ensures Count(bits[i := b]) == Count(bits) + (if b then 1 else 0) - (if bits[i] then 1 else 0)
  {
    if i == 0 {
      assert bits[0 := b][1..] == bits[1..];
    } else {
      assert bits[i := b][1..] == bits[1..][i - 1 := b];
      CountUpdate(bits[1..], i - 1, b);
    }
  }

  lemma {:induction false} FirstSetIs(bits: seq<bool>, k: nat)
    requires k <= |bits| && (k < |bits| ==> bits[k]) && forall j :: 0 <= j < k ==> !bits[j]
    ensures FirstSet(bits) == k
  {
  }

  class BoundedIndexSet {
    const bits: array<bool>

    constructor (capacity: nat)
      ensures fresh(this) && fresh(bits) && bits.Length == capacity
      ensures forall i :: 0 <= i < capacity ==> !bits[i]
    {
      bits := new bool[capacity](i => false);
    }

    method SetAll()
      modifies bits
      ensures forall i :: 0 <= i < bits.Length ==> bits[i]
    {
      var i := 0;
      while i < bits.Length
        invariant i <= bits.Length && forall j :: 0 <= j < i ==> bits[j]
      {
        bits[i] := true;
        i := i + 1;
      }
    }

    method FindFirstSet() returns (found: Option<nat>)
      ensures found == if FirstSet(bits[..]) < bits.Length then Some(FirstSet(bits[..])) else None
    {
      var i := 0;
      while i < bits.Length
        invariant i <= bits.Length && forall j :: 0 <= j < i ==> !bits[j]
      {
        if bits[i] {
          FirstSetIs(bits[..], i);
          return Some(i);
        }
        i := i + 1;
      }
      FirstSetIs(bits[..], bits.Length);
      return None;
    }

    method CountSet() returns (n: nat)
      ensures n == Count(bits[..])
    {
      n := 0;
      var i := 0;
      while i < bits.Length
        invariant i <= bits.Length && n == Count(bits[..i])
      {
        CountSnoc(bits[..i], bits[i]);
        assert bits[..i + 1] == bits[..i] + [bits[i]];
        n := n + if bits[i] then 1 else 0;
        i := i + 1;
      }
      assert bits[..i] == bits[..];
    }
  }

  // ---------------------------------------------------------------- intrusive FIFO

  predicate Distinct<T(==)>(s: seq<T>) { forall j, k :: 0 <= j < k < |s| ==> s[j] != s[k] }

  function At(order: seq<nat>, k: nat): Option<nat> { if k < |order| then Some(order[k]) else None }

  function Raw(next: Option<nat>, sentinel: nat): nat { if next.Some? then next.value else sentinel }

  /** The k-th queued record links to the next one, the last to none. */
  ghost predicate LinkOk(links: seq<nat>, sentinel: nat, order: seq<nat>, k: nat) {
    k < |order| ==> order[k] < |links| && links[order[k]] == Raw(At(order, k + 1), sentinel)
  }

  /** The links spell out the order: acyclic, complete and ended by the sentinel. */
  ghost predicate Linked(links: seq<nat>, sentinel: nat, head: Option<nat>, tail: Option<nat>, order: seq<nat>) {
    && |links| <= sentinel
    && Distinct(order)
    && head == At(order, 0)
    && tail == (if order == [] then None else Some(order[|order| - 1]))
    && (forall k: nat :: LinkOk(links, sentinel, order, k))
  }

  lemma {:induction false} LinkedPush(links: seq<nat>, sentinel: nat, head: Option<nat>,
      tail: Option<nat>, order: seq<nat>, i: nat)
    requires Linked(links, sentinel, head, tail, order) && i < |links| && i !in order
    ensures tail.Some? ==> tail.value < |links|
    ensures var links1 := links[i := sentinel];
      Linked(if tail.None? then links1 else links1[tail.value := i], sentinel,
             if tail.None? then Some(i) else head, Some(i), order + [i])
  {
    if order != [] { assert LinkOk(links, sentinel, order, |order| - 1); }
    var links1 := links[i := sentinel];
    var out := if tail.None? then links1 else links1[tail.value := i];
    forall k: nat ensures LinkOk(out, sentinel, order + [i], k) { assert LinkOk(links, sentinel, order, k); }
  }

  lemma {:induction false} LinkedPop(links: seq<nat>, sentinel: nat, head: Option<nat>,
      tail: Option<nat>, order: seq<nat>)
    requires Linked(links, sentinel, head, tail, order) && order != []
    ensures order[0] < |links|
    ensures var next := NextOf(links[order[0]], sentinel);
      Linked(links[order[0] := sentinel], sentinel, next, if next.None? then None else tail, order[1..])
  {
    assert LinkOk(links, sentinel, order, 0) && LinkOk(links, sentinel, order, 1);
    var out := links[order[0] := sentinel];
    forall k: nat ensures LinkOk(out, sentinel, order[1..], k) { assert LinkOk(links, sentinel, order, k + 1); }
  }

  function Bypass(links: seq<nat>, sentinel: nat, previous: Option<nat>, i: nat): (out: seq<nat>)
    requires i < |links| && (previous.Some? ==> previous.value < |links|)
    ensures |out| == |links|
  {
    (if previous.None? then links else links[previous.value := links[i]])[i := sentinel]
  }

  function Drop(order: seq<nat>, k: nat): seq<nat>
    requires k < |order|
  {
    order[..k] + order[k + 1..]
  }

  lemma {:induction false} DropAt(order: seq<nat>, k: nat, j: nat)
    requires k < |order|
    ensures At(Drop(order, k), j) == At(order, if j < k then j else j + 1)
    ensures |Drop(order, k)| == |order| - 1
  {
  }

  lemma {:induction false} LinkedRemove(links: seq<nat>, sentinel: nat, head: Option<nat>,
      tail: Option<nat>, order: seq<nat>, k: nat)
    requires Linked(links, sentinel, head, tail, order) && k < |order|
    ensures order[k] < |links| && (k > 0 ==> order[k - 1] < |links|)
    ensures var previous, next := if k == 0 then None else Some(order[k - 1]), At(order, k + 1);
      && NextOf(links[order[k]], sentinel) == next && (next.Some? ==> next.value < |links|)
      && (forall j :: 0 <= j < |links| && j !in order ==> Bypass(links, sentinel, previous, order[k])[j] == links[j])
      && Linked(Bypass(links, sentinel, previous, order[k]), sentinel,
                if previous.None? then next else head, if next.None? then previous else tail, Drop(order, k))
  {
    assert LinkOk(links, sentinel, order, k) && LinkOk(links, sentinel, order, k + 1);
    if k > 0 { assert LinkOk(links, sentinel, order, k - 1); }
    var previous := if k == 0 then None else Some(order[k - 1]);
    var out, rest := Bypass(links, sentinel, previous, order[k]), Drop(order, k);
    forall j: nat ensures LinkOk(out, sentinel, rest, j) {
      var j0 := if j < k then j else j + 1;
      assert LinkOk(links, sentinel, order, j0);
      DropAt(order, k, j);
      DropAt(order, k, j + 1);
    }
    forall a, b | 0 <= a < b < |rest| ensures rest[a] != rest[b] {
      DropAt(order, k, a);
      DropAt(order, k, b);
    }
    DropAt(order, k, 0);
    if |order| > 1 { DropAt(order, k, |order| - 2); }
  }

  lemma {:induction false} DropCons(q: seq<nat>, k: nat)
    requires 0 < k < |q|
    ensures Drop(q, k) == [q[0]] + Drop(q[1..], k - 1)
  {
    assert q[1..][..k - 1] == q[1..k] && q[1..][k..] == q[k + 1..];
  }

  lemma {:induction false} WithoutAt(q: seq<nat>, x: nat, k: nat)
    requires k <= |q| && (k < |q| ==> q[k] == x) && forall j :: 0 <= j < k ==> q[j] != x
    ensures Without(q, x) == if k < |q| then Drop(q, k) else q
    ensures x in q <==> k < |q|
  {
    if k > 0 {
      var r := q[1..];
      assert q == [q[0]] + r && (k < |q| ==> r[k - 1] == q[k]);
      forall j | 0 <= j < k - 1 ensures r[j] != x { assert r[j] == q[j + 1]; }
      WithoutAt(r, x, k - 1);
      if k < |q| { DropCons(q, k); }
      assert Without(q, x) == [q[0]] + Without(r, x);
    }
  }

  lemma {:induction false} WithoutMember(q: seq<nat>, x: nat)
    ensures forall y: nat :: y in Without(q, x) ==> y in q
    ensures Distinct(q) ==> x !in Without(q, x)
  {
    if q != [] && q[0] != x { WithoutMember(q[1..], x); }
  }

  /** Scratch scalars of records that are not queued are no links and may hold anything. */
  lemma {:induction false} LinkedFrame(links: seq<nat>, out: seq<nat>, sentinel: nat, head: Option<nat>,
      tail: Option<nat>, order: seq<nat>)
    requires Linked(links, sentinel, head, tail, order) && |out| == |links|
    requires forall i :: 0 <= i < |links| && i in order ==> out[i] == links[i]
    ensures Linked(out, sentinel, head, tail, order)
  {
    forall k: nat ensures LinkOk(out, sentinel, order, k) { assert LinkOk(links, sentinel, order, k); }
  }

  /** The records of one facility: distinct objects that agree on the two capacities. */
  ghost predicate Table(records: seq<TaskRecord>, contexts: nat) {
    && Distinct(records)
    && forall i :: 0 <= i < |records| ==>
         records[i].Sized() && records[i].recordCapacity == |records| && records[i].contextCapacity == contexts
  }

  ghost function Links(records: seq<TaskRecord>): seq<nat>
    reads records
  {
    seq(|records|, i requires 0 <= i < |records| reads records => records[i].scratch)
  }

  method SetLink(records: seq<TaskRecord>, ghost contexts: nat, i: nat, next: Option<nat>)
    requires Table(records, contexts) && i < |records| && (next.Some? ==> next.value < |records|)
    modifies {records[i]}`scratch
    ensures Links(records) == old(Links(records))[i := Raw(next, NoLink(|records|, contexts))]
  {
    records[i].SetQueueNext(next);
  }

  /** Lets the record before i skip it and takes i's own link away. */
  method Bridge(records: seq<TaskRecord>, ghost contexts: nat, previous: Option<nat>, i: nat, next: Option<nat>)
    requires Table(records, contexts) && i < |records| && next == records[i].QueueNext()
    requires (previous.Some? ==> previous.value < |records|) && (next.Some? ==> next.value < |records|)
    modifies records`scratch
    ensures Links(records) == Bypass(old(Links(records)), NoLink(|records|, contexts), previous, i)
  {
    if previous.Some? { SetLink(records, contexts, previous.value, next); }
    SetLink(records, contexts, i, None);
  }

  class IntrusiveQueue {
    var head: Option<nat>
    var tail: Option<nat>

    /** The queued record indices, oldest first. */
    ghost var order: seq<nat>

    constructor ()
      ensures head == tail == None && order == []
    {
      head, tail, order := None, None, [];
    }

    ghost predicate Chain(records: seq<TaskRecord>, contexts: nat)
      reads this, records
    {
      && Table(records, contexts) && |records| <= MAX_CAPACITY && contexts <= MAX_CAPACITY
      && Linked(Links(records), NoLink(|records|, contexts), head, tail, order)
    }

    /** Appends a record that is not queued. */
    method Push(records: seq<TaskRecord>, ghost contexts: nat, i: nat)
      requires Chain(records, contexts) && i < |records| && i !in order
      modifies this, records`scratch
      ensures Chain(records, contexts) && order == old(order) + [i]
      ensures forall j :: 0 <= j < |records| && j !in order ==> Links(records)[j] == old(Links(records)[j])
    {
      LinkedPush(Links(records), NoLink(|records|, contexts), head, tail, order, i);
      SetLink(records, contexts, i, None);
      if tail.None? {
        head := Some(i);
      } else {
        SetLink(records, contexts, tail.value, Some(i));
      }
      tail := Some(i);
      order := order + [i];
    }

    method Pop(records: seq<TaskRecord>, ghost contexts: nat) returns (popped: Option<nat>)
      requires Chain(records, contexts)
      modifies this, records`scratch
      ensures Chain(records, contexts) && popped == At(old(order), 0)
      ensures order == if old(order) == [] then [] else old(order)[1..]
      ensures forall j :: 0 <= j < |records| && j !in old(order) ==> Links(records)[j] == old(Links(records)[j])
    {
      if head.None? { return None; }
      LinkedPop(Links(records), NoLink(|records|, contexts), head, tail, order);
      popped := head;
      head := records[popped.value].QueueNext();
      if head.None? { tail := None; }
      SetLink(records, contexts, popped.value, None);
      order := order[1..];
    }

    /** Walks to record i and remembers the record before it; k is where the walk stopped. */
    method Find(records: seq<TaskRecord>, ghost contexts: nat, i: nat)
      returns (found: bool, previous: Option<nat>, ghost k: nat)
      requires Chain(records, contexts)
      ensures k <= |order| && (found <==> k < |order|) && (found <==> i in order)
      ensures found ==> order[k] == i
      ensures Without(order, i) == if found then Drop(order, k) else order
      ensures previous == if k == 0 then None else Some(order[k - 1])
    {
      var current := head;
      previous, k := None, 0;
      while current.Some? && current.value != i
        invariant k <= |order| && current == At(order, k)
        invariant previous == if k == 0 then None else Some(order[k - 1])
        invariant forall j :: 0 <= j < k ==> order[j] != i
        decreases |order| - k
      {
        assert LinkOk(Links(records), NoLink(|records|, contexts), order, k);
        assert LinkOk(Links(records), NoLink(|records|, contexts), order, k + 1);
        previous, current := current, records[current.value].QueueNext();
        k := k + 1;
      }
      WithoutAt(order, i, k);
      found := current.Some?;
    }

    /** Takes out the k-th queued record i, whose predecessor is known. */
    method Unlink(records: seq<TaskRecord>, ghost contexts: nat, previous: Option<nat>, i: nat, ghost k: nat)
      requires Chain(records, contexts) && k < |order| && order[k] == i && i < |records|
      requires previous == if k == 0 then None else Some(order[k - 1])
      modifies this, records`scratch
      ensures Chain(records, contexts) && order == Drop(old(order), k)
      ensures forall j :: 0 <= j < |records| && j !in old(order) ==> Links(records)[j] == old(Links(records)[j])
    {
      LinkedRemove(Links(records), NoLink(|records|, contexts), head, tail, order, k);
      var next := records[i].QueueNext();
      ghost var head1, tail1 := if previous.None? then next else head, if next.None? then previous else tail;
      Bridge(records, contexts, previous, i, next);
      assert Linked(Links(records), NoLink(|records|, contexts), head1, tail1, Drop(order, k));
      if previous.None? { head := next; }
      if next.None? { tail := previous; }
      order := Drop(order, k);
    }

    /** Unlinks one record from anywhere in the queue; a record that is not queued is not found. */
    method Remove(records: seq<TaskRecord>, ghost contexts: nat, i: nat) returns (removed: bool)
      requires Chain(records, contexts) && i < |records|
      modifies this, records`scratch
      ensures Chain(records, contexts) && order == Without(old(order), i)
      ensures removed <==> i in old(order)
      ensures forall j :: 0 <= j < |records| && j !in old(order) ==> Links(records)[j] == old(Links(records)[j])
    {
      var found, previous, k := Find(records, contexts, i);
      if found { Unlink(records, contexts, previous, i, k); }
      removed := found;
    }

    /** Walks the links from the head; the walk ends and counts every queued record once. */
    method Length(records: seq<TaskRecord>, ghost contexts: nat) returns (n: nat)
      requires Chain(records, contexts)
      ensures n == |order|
    {
      n := 0;
      var current := head;
      while current.Some?
        invariant n <= |order| && current == At(order, n)
        decreases |order| - n
      {
        assert LinkOk(Links(records), NoLink(|records|, contexts), order, n);
        assert LinkOk(Links(records), NoLink(|records|, contexts), order, n + 1);
        current := records[current.value].QueueNext();
        n := n + 1;
      }
    }
  }
}
