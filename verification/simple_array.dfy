/** SimpleArray<T>: a fixed buffer of five slots that silently ignores
 *  adds once it is full. */
module SimpleArrays {

  /** Number of slots of the buffer. */
  const Slots: nat := 5

  /** Contents after one add: appended while there is room, unchanged once full. */
  function Added<T>(contents: seq<T>, value: T): seq<T>
  {
    if |contents| < Slots then contents + [value] else contents
  }

  /** Contents after adding every value of `values` in order. */
  function AddedAll<T>(contents: seq<T>, values: seq<T>): seq<T>
    decreases |values|
  {
    if values == [] then contents else AddedAll(Added(contents, values[0]), values[1..])
  }

  function Min(a: nat, b: nat): nat
  {
    if a <= b then a else b
  }

  /** The container keeps the first five values ever added, in the order
   *  they came, and drops every later one: earlier values are never
   *  overwritten and the size never exceeds five. */
  lemma {:induction false} AddedAllKeepsFirstFive<T>(contents: seq<T>, values: seq<T>)
    requires |contents| <= Slots
    ensures AddedAll(contents, values) == (contents + values)[..Min(Slots, |contents| + |values|)]
    decreases |values|
  {
    if values != [] {
      var next := Added(contents, values[0]);
      AddedAllKeepsFirstFive(next, values[1..]);
      if |contents| < Slots {
        assert next + values[1..] == contents + values;
      } else {
        assert (next + values[1..])[..Slots] == (contents + values)[..Slots];
      }
    }
  }

  class SimpleArray<T(0)> {
    const data: array<T>
    var size: int

    ghost predicate Valid()
      reads this
    {
      data.Length == Slots && 0 <= size <= Slots
    }

    /** The items added so far, in order. */
    ghost function Contents(): seq<T>
      reads this, data
      requires Valid()
    {
      data[..size]
    }

    constructor ()
      ensures Valid() && fresh(data)
      ensures Contents() == []
    {
      data := new T[Slots];
      size := 0;
    }

    /** Stores `value` at index `size` while there is room; otherwise does nothing. */
    method Add(value: T)
      requires Valid()
      modifies this`size, data
      ensures Valid()
      ensures Contents() == Added(old(Contents()), value)
      ensures old(size) >= Slots ==> size == old(size) && data[..] == old(data[..])
      ensures forall j :: old(size) < j < Slots ==> data[j] == old(data[j])
    {
      if size < Slots {
        data[size] := value;
        size := size + 1;
      }
    }

    /** Element access through operator[], which checks no bounds against
     *  `size`: any of the five slots may be read. */
    method Get(idx: int) returns (item: T)
      requires Valid() && 0 <= idx < Slots
      ensures item == data[idx]
      ensures idx < size ==> item == Contents()[idx]
    {
      item := data[idx];
    }

    /** Assignment through the reference operator[] returns. */
    method Set(idx: int, value: T)
      requires Valid() && 0 <= idx < Slots
      modifies data
      ensures Valid()
      ensures data[..] == old(data[..])[idx := value]
      ensures Contents() == if idx < size then old(Contents())[idx := value] else old(Contents())
    {
      data[idx] := value;
    }

    method GetSize() returns (n: int)
      requires Valid()
      ensures n == |Contents()| && 0 <= n <= Slots
    {
      n := size;
    }
  }
}
