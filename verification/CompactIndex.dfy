/** Compact indices: the smallest of three unsigned scalars that can name every member of a bounded
    space and still spare one value, its maximum, for "no member". */
module CompactIndex {

  const MAX_CAPACITY: nat := 0xFFFF_FFFF

  /** The largest value of the scalar chosen for a space of the given capacity; it is the sentinel. */
  function StorageMax(capacity: nat): (max: nat)
    requires capacity <= MAX_CAPACITY
    ensures capacity <= max <= MAX_CAPACITY
  {
    if capacity <= 0xFF then 0xFF else if capacity <= 0xFFFF then 0xFFFF else 0xFFFF_FFFF
  }

  /** An unsigned conversion to the scalar that StorageMax chooses keeps the low bits. */
  function Cast(x: nat, capacity: nat): (y: nat)
    requires capacity <= MAX_CAPACITY
    ensures y <= StorageMax(capacity)
    ensures x <= StorageMax(capacity) ==> y == x
  {
    if capacity <= 0xFF then x % 0x100 else if capacity <= 0xFFFF then x % 0x1_0000 else x % 0x1_0000_0000
  }

  /** The capacity that selects the scratch scalar of a Task record. */
  function ScratchCapacity(records: nat, contexts: nat): nat { if records > contexts then records else contexts }

  /** Widening into the scratch scalar loses nothing, so the way back to either narrow scalar
      returns every index and either sentinel unchanged, whatever the two capacities are. */
  lemma ScratchRoundTrip(records: nat, contexts: nat, x: nat)
    requires records <= MAX_CAPACITY && contexts <= MAX_CAPACITY
    ensures var wide := Cast(x, ScratchCapacity(records, contexts));
      && (x <= StorageMax(records) ==> wide == x)
      && (x <= StorageMax(contexts) ==> Cast(wide, contexts) == x)
  {
  }
}
