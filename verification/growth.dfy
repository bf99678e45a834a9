/** Capacity growth shared by the two hand-grown arrays of the game: the
 *  controller's decision log and the history tracker's snapshot array.
 *  Both start with ten slots and double their capacity when an append
 *  finds them full. */
module Growth {

  /** Capacity of a freshly built log. */
  const InitialCapacity: nat := 10

  /** Capacity after one append that found `size` items in `capacity` slots. */
  function GrownCapacity(capacity: nat, size: nat): nat
  {
    if size >= capacity then 2 * capacity else capacity
  }

  /** Capacity of a log after `n` appends to a fresh one. */
  function CapacityAfter(n: nat): nat
  {
    if n == 0 then InitialCapacity else GrownCapacity(CapacityAfter(n - 1), n - 1)
  }

  /** Doubling keeps room for every item, never shrinks below the initial
   *  ten slots, and never wastes more than half of the storage once it
   *  has grown: after the eleventh append the capacity is twenty. */
  lemma {:induction false} CapacityAfterBounds(n: nat)
    ensures n <= CapacityAfter(n)
    ensures InitialCapacity <= CapacityAfter(n)
    ensures n <= InitialCapacity ==> CapacityAfter(n) == InitialCapacity
    ensures n > InitialCapacity ==> CapacityAfter(n) < 2 * n
    ensures n == InitialCapacity + 1 ==> CapacityAfter(n) == 2 * InitialCapacity
  {
    if n > 0 {
      CapacityAfterBounds(n - 1);
    }
  }
}
