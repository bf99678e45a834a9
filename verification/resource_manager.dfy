/** The kingdom's four resource stocks and the operations that change
 *  them in place. The amounts typed at the console in the game are
 *  parameters here. */
module Resources {

  datatype Resource = Food | Wood | Stone | Iron

  datatype Option<T> = None | Some(value: T)

  /** Four quantities, one per resource: a stock, or a request. */
  datatype Stock = Stock(food: int, wood: int, stone: int, iron: int)
  {
    function Amount(r: Resource): int
    {
      match r
      case Food => food
      case Wood => wood
      case Stone => stone
      case Iron => iron
    }

    predicate NonNegative()
    {
      food >= 0 && wood >= 0 && stone >= 0 && iron >= 0
    }

    /** Every stock is at least the matching request. */
    predicate Covers(request: Stock)
    {
      food >= request.food && wood >= request.wood && stone >= request.stone && iron >= request.iron
    }
  }

  /** `change` added to one stock; the others are left alone. */
  function Tracked(s: Stock, r: Resource, change: int): (t: Stock)
    ensures forall q :: t.Amount(q) == s.Amount(q) + (if q == r then change else 0)
  {
    match r
    case Food => s.(food := s.food + change)
    case Wood => s.(wood := s.wood + change)
    case Stone => s.(stone := s.stone + change)
    case Iron => s.(iron := s.iron + change)
  }

  /** Stocks after gathering: a negative amount rejects the whole gather. */
  function Gathered(s: Stock, amounts: Stock): Stock
  {
    if !amounts.NonNegative() then s
    else Stock(s.food + amounts.food, s.wood + amounts.wood, s.stone + amounts.stone, s.iron + amounts.iron)
  }

  /** Stocks after consuming: all or nothing. A negative amount or any
   *  stock below its request rejects the whole consumption. */
  function Consumed(s: Stock, amounts: Stock): Stock
  {
    if !amounts.NonNegative() || !s.Covers(amounts) then s
    else Stock(s.food - amounts.food, s.wood - amounts.wood, s.stone - amounts.stone, s.iron - amounts.iron)
  }

  /** The resource a lower-case name denotes, if any. */
  function ResourceNamed(name: string): (r: Option<Resource>)
    ensures r == Some(Food) <==> name == "food"
    ensures r == Some(Wood) <==> name == "wood"
    ensures r == Some(Stone) <==> name == "stone"
    ensures r == Some(Iron) <==> name == "iron"
  {
    if name == "food" then Some(Food)
    else if name == "wood" then Some(Wood)
    else if name == "stone" then Some(Stone)
    else if name == "iron" then Some(Iron)
    else None
  }

  /** Stocks after consumeFixed: the named stock drops by `amount` when it
   *  holds at least that much; any other name, or too little stock,
   *  changes nothing. The sign of `amount` is not checked. */
  function FixedConsumed(s: Stock, name: string, amount: int): Stock
  {
    match ResourceNamed(name)
    case Some(r) => if s.Amount(r) >= amount then Tracked(s, r, -amount) else s
    case None => s
  }

  /** Consuming what was just gathered restores the stocks, and gathering
   *  after such a consumption restores them too. */
  lemma ConsumeUndoesGather(s: Stock, amounts: Stock)
    requires s.NonNegative()
    ensures Consumed(Gathered(s, amounts), amounts) == s
    ensures s.Covers(amounts) ==> Gathered(Consumed(s, amounts), amounts) == s
  {
  }

  /** Consumption is all or nothing: either every stock falls by its
   *  request or none moves; gathering never lowers a stock; so
   *  non-negative stocks stay non-negative under both. */
  lemma ConsumeAllOrNothing(s: Stock, amounts: Stock)
    ensures var c := Consumed(s, amounts);
      c == s || (amounts.NonNegative() && s.Covers(amounts)
                 && forall r :: c.Amount(r) == s.Amount(r) - amounts.Amount(r))
    ensures forall r :: Consumed(s, amounts).Amount(r) <= s.Amount(r)
    ensures forall r :: s.Amount(r) <= Gathered(s, amounts).Amount(r)
    ensures s.NonNegative() ==> Consumed(s, amounts).NonNegative() && Gathered(s, amounts).NonNegative()
  {
  }

  /** consumeFixed touches at most the named stock; it lowers it by exactly
   *  `amount` when it held that much; with an unknown name nothing changes;
   *  and a negative amount raises the named stock. */
  lemma FixedConsumedTouchesOnlyNamed(s: Stock, name: string, amount: int)
    ensures ResourceNamed(name).None? ==> FixedConsumed(s, name, amount) == s
    ensures forall r :: (ResourceNamed(name) != Some(r)
      ==> FixedConsumed(s, name, amount).Amount(r) == s.Amount(r))
    ensures forall r :: (ResourceNamed(name) == Some(r)
      ==> FixedConsumed(s, name, amount).Amount(r)
          == (if s.Amount(r) >= amount then s.Amount(r) - amount else s.Amount(r)))
    ensures amount < 0 && s.NonNegative() && ResourceNamed(name).Some?
      ==> FixedConsumed(s, name, amount).Amount(ResourceNamed(name).value) > s.Amount(ResourceNamed(name).value)
  {
  }

  class ResourceManager {
    var food: int
    var wood: int
    var stone: int
    var iron: int

    function State(): Stock
      reads this
    {
      Stock(food, wood, stone, iron)
    }

    constructor ()
      ensures State() == Stock(500, 300, 200, 100)
    {
      food := 500;
      wood := 300;
      stone := 200;
      iron := 100;
    }

    /** Adds `change` to the referenced stock. */
    method TrackResourceChange(resource: Resource, change: int)
      modifies this
      ensures State() == Tracked(old(State()), resource, change)
    {
      match resource
      case Food => food := food + change;
      case Wood => wood := wood + change;
      case Stone => stone := stone + change;
      case Iron => iron := iron + change;
    }

    method GatherResources(f: int, w: int, s: int, i: int)
      modifies this
      ensures State() == Gathered(old(State()), Stock(f, w, s, i))
    {
      if f < 0 || w < 0 || s < 0 || i < 0 {
        return;
      }
      TrackResourceChange(Food, f);
      TrackResourceChange(Wood, w);
      TrackResourceChange(Stone, s);
      TrackResourceChange(Iron, i);
    }

    method ConsumeResources(f: int, w: int, s: int, i: int)
      modifies this
      ensures State() == Consumed(old(State()), Stock(f, w, s, i))
    {
      if f < 0 || w < 0 || s < 0 || i < 0 {
        return;
      }
      if food < f || wood < w || stone < s || iron < i {
        return;
      }
      TrackResourceChange(Food, -f);
      TrackResourceChange(Wood, -w);
      TrackResourceChange(Stone, -s);
      TrackResourceChange(Iron, -i);
    }

    method ConsumeFixed(resourceType: string, amount: int)
      modifies this
      ensures State() == FixedConsumed(old(State()), resourceType, amount)
    {
      if resourceType == "food" && food >= amount {
        TrackResourceChange(Food, -amount);
      } else if resourceType == "wood" && wood >= amount {
        TrackResourceChange(Wood, -amount);
      } else if resourceType == "stone" && stone >= amount {
        TrackResourceChange(Stone, -amount);
      } else if resourceType == "iron" && iron >= amount {
        TrackResourceChange(Iron, -amount);
      }
    }
  }
}
