/** The army: three counters changed in place by recruitment and by
 *  morale losses. The population the recruits are drawn from is not part
 *  of this model; recruitment takes its total as a parameter and reports
 *  how many people must leave it. */
module Armies {

  /** The counters that the private helper trackResourceChange may be handed. */
  datatype Counter = Soldiers | Morale | FoodSupply

  /** The army's counters as a value. */
  datatype ArmyState = ArmyState(soldiers: int, morale: int, foodSupply: int)

  /** `change` added to one counter; the others are left alone. */
  function Tracked(s: ArmyState, counter: Counter, change: int): (r: ArmyState)
    ensures r.soldiers == s.soldiers + (if counter == Soldiers then change else 0)
    ensures r.morale == s.morale + (if counter == Morale then change else 0)
    ensures r.foodSupply == s.foodSupply + (if counter == FoodSupply then change else 0)
  {
    match counter
    case Soldiers => s.(soldiers := s.soldiers + change)
    case Morale => s.(morale := s.morale + change)
    case FoodSupply => s.(foodSupply := s.foodSupply + change)
  }

  /** Morale after losing `amount`, floored at 0. */
  function MoraleLowered(morale: int, amount: int): (m: int)
    ensures 0 <= m
    ensures m == morale - amount || (m == 0 && morale - amount < 0)
  {
    if morale - amount < 0 then 0 else morale - amount
  }

  /** The recruit count is positive and no larger than the population. */
  predicate RecruitCountValid(populationTotal: int, recruitCount: int)
  {
    0 < recruitCount <= populationTotal
  }

  /** Training costs two units of food per recruit. */
  function FoodRequired(recruitCount: int): int
  {
    recruitCount * 2
  }

  /** Army after recruitAndTrain: an invalid count changes nothing; too
   *  little food only costs 10 morale (unclamped); otherwise the recruits
   *  join, food is spent, and morale rises by 5 within [0, 100]. */
  function Recruited(s: ArmyState, populationTotal: int, recruitCount: int): ArmyState
  {
    if !RecruitCountValid(populationTotal, recruitCount) then s
    else if s.foodSupply < FoodRequired(recruitCount) then s.(morale := s.morale - 10)
    else
      var trained := Tracked(Tracked(Tracked(s, Soldiers, recruitCount),
                                     FoodSupply, -FoodRequired(recruitCount)),
                             Morale, 5);
      trained.(morale := if trained.morale > 100 then 100 else if trained.morale < 0 then 0 else trained.morale)
  }

  /** How many people recruitAndTrain takes out of the population. */
  function Drafted(s: ArmyState, populationTotal: int, recruitCount: int): int
  {
    if RecruitCountValid(populationTotal, recruitCount) && s.foodSupply >= FoodRequired(recruitCount)
    then recruitCount else 0
  }

  /** Every soldier gained is a person drafted from the population, so
   *  soldiers plus population are conserved; the food spent is exactly
   *  two units per recruit and never drives a non-negative supply below
   *  zero; a successful recruitment leaves morale in [0, 100]. */
  lemma RecruitmentConserves(s: ArmyState, populationTotal: int, recruitCount: int)
    ensures var r := Recruited(s, populationTotal, recruitCount);
      var d := Drafted(s, populationTotal, recruitCount);
      && r.soldiers + (populationTotal - d) == s.soldiers + populationTotal
      && r.foodSupply == s.foodSupply - 2 * d
      && (s.foodSupply >= 0 ==> r.foodSupply >= 0)
      && 0 <= d <= (if populationTotal > 0 then populationTotal else 0)
      && (d > 0 ==> 0 <= r.morale <= 100)
  {
  }

  /** A rejected count changes nothing; a shortage of food changes only
   *  morale, by exactly -10, with no floor. */
  lemma RecruitmentRejections(s: ArmyState, populationTotal: int, recruitCount: int)
    ensures !RecruitCountValid(populationTotal, recruitCount)
      ==> Recruited(s, populationTotal, recruitCount) == s
    ensures RecruitCountValid(populationTotal, recruitCount) && s.foodSupply < 2 * recruitCount
      ==> Recruited(s, populationTotal, recruitCount) == ArmyState(s.soldiers, s.morale - 10, s.foodSupply)
    ensures Drafted(s, populationTotal, recruitCount) == 0
      <==> Recruited(s, populationTotal, recruitCount).soldiers == s.soldiers
  {
  }

  class Army {
    var soldiers: int
    var morale: int      // meant as a 0-100 scale, but not kept there
    var foodSupply: int

    function State(): ArmyState
      reads this
    {
      ArmyState(soldiers, morale, foodSupply)
    }

    constructor ()
      ensures State() == ArmyState(20, 70, 100)
    {
      soldiers := 20;
      morale := 70;
      foodSupply := 100;
    }

    /** Adds `change` to the referenced counter. */
    method TrackResourceChange(counter: Counter, change: int)
      modifies this
      ensures State() == Tracked(old(State()), counter, change)
    {
      match counter
      case Soldiers => soldiers := soldiers + change;
      case Morale => morale := morale + change;
      case FoodSupply => foodSupply := foodSupply + change;
    }

    /** Recruits `recruitCount` people (read from the console in the game)
     *  and returns how many the caller must remove from the population. */
    method RecruitAndTrain(populationTotal: int, recruitCount: int) returns (drafted: int)
      modifies this
      ensures State() == Recruited(old(State()), populationTotal, recruitCount)
      ensures drafted == Drafted(old(State()), populationTotal, recruitCount)
    {
      if recruitCount <= 0 || recruitCount > populationTotal {
        return 0;
      }
      var foodRequired := recruitCount * 2;
      if foodSupply < foodRequired {
        morale := morale - 10;
        return 0;
      }
      drafted := recruitCount;
      TrackResourceChange(Soldiers, recruitCount);
      TrackResourceChange(FoodSupply, -foodRequired);
      TrackResourceChange(Morale, 5);
      if morale > 100 { morale := 100; }
      if morale < 0 { morale := 0; }
    }

    method LowerMorale(amount: int)
      modifies this`morale
      ensures morale == MoraleLowered(old(morale), amount)
    {
      morale := morale - amount;
      if morale < 0 { morale := 0; }
    }
  }
}
