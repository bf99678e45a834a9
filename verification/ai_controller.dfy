/** The AI controller: adaptive parameters (risk tolerance, conflict
 *  level, unit-strength factors, resource priorities) and a hand-grown
 *  log of decision codes, all updated in place by three decision rules.
 *  Population and economy are not part of this model: their totals and
 *  the treasury come in as parameters, and the gold the conflict rule
 *  spends is returned for the caller to deduct. */
module AIControl {
  import opened Growth
  import opened DecisionRules
  import Armies

  class AIController {
    var riskTolerance: real      // kept in [0.0, 1.0]
    var lastTaxCollection: int
    var lastArmySize: int
    var conflictLevel: int       // kept in [0, 10]

    var decisionHistory: array<int>
    var decisionHistorySize: int
    var decisionHistoryCapacity: int

    const unitStrengthFactors: array<real>
    const resourceAllocation: array<int>

    /** The decision log is well formed: its capacity is the array's
     *  length and is the one that doubling from ten yields for its size. */
    ghost predicate LogValid()
      reads this
    {
      && decisionHistory != resourceAllocation
      && 0 <= decisionHistorySize <= decisionHistoryCapacity
      && decisionHistoryCapacity == decisionHistory.Length
      && decisionHistoryCapacity == CapacityAfter(decisionHistorySize)
    }

    ghost predicate Valid()
      reads this, unitStrengthFactors, resourceAllocation
    {
      && LogValid()
      && unitStrengthFactors.Length == UnitTypesCount
      && 0.0 <= riskTolerance <= 1.0
      && 0 <= conflictLevel <= 10
      && (forall i :: 0 <= i < UnitTypesCount ==> MinStrength <= unitStrengthFactors[i] <= MaxStrength)
      && Settled(resourceAllocation[..])
    }

    /** The decision codes recorded so far, oldest first. */
    ghost function History(): seq<int>
      reads this, decisionHistory
      requires LogValid()
    {
      decisionHistory[..decisionHistorySize]
    }

    ghost function Strengths(): seq<real>
      reads unitStrengthFactors
    {
      unitStrengthFactors[..]
    }

    ghost function Allocation(): seq<int>
      reads resourceAllocation
    {
      resourceAllocation[..]
    }

    constructor ()
      ensures Valid()
      ensures fresh(decisionHistory) && fresh(unitStrengthFactors) && fresh(resourceAllocation)
      ensures riskTolerance == 0.5 && conflictLevel == 3
      ensures lastTaxCollection == 0 && lastArmySize == 0
      ensures decisionHistoryCapacity == 10 && History() == []
      ensures Strengths() == [1.0, 1.0, 1.0, 1.0, 1.0]
      ensures Allocation() == [25, 25, 25, 25]
    {
      riskTolerance := 0.5;
      lastTaxCollection := 0;
      lastArmySize := 0;
      conflictLevel := 3;
      decisionHistoryCapacity := InitialCapacity;
      decisionHistorySize := 0;
      decisionHistory := new int[InitialCapacity];
      var strengths := new real[UnitTypesCount];
      for i := 0 to UnitTypesCount
        modifies strengths
        invariant forall j :: 0 <= j < i ==> strengths[j] == 1.0
      {
        strengths[i] := 1.0;
      }
      unitStrengthFactors := strengths;
      var allocation := new int[ResourceTypesCount];
      for i := 0 to ResourceTypesCount
        modifies allocation
        invariant forall j :: 0 <= j < i ==> allocation[j] == 25
      {
        allocation[i] := 25;
      }
      resourceAllocation := allocation;
      new;
      assert Strengths() == [1.0, 1.0, 1.0, 1.0, 1.0];
      assert Allocation() == [25, 25, 25, 25];
      assert [25, 25, 25, 25][..3] == [25, 25, 25];
      assert [25, 25, 25][..2] == [25, 25];
      assert [25, 25][..1] == [25];
      assert Sum(Allocation()) == 100;
    }

    /** Appends a decision code, doubling the storage first when it is full.
     *  Every earlier code keeps its index and value. */
    method AddDecision(decisionCode: int)
      requires LogValid()
      modifies this`decisionHistory, this`decisionHistorySize, this`decisionHistoryCapacity, decisionHistory
      ensures LogValid()
      ensures History() == old(History()) + [decisionCode]
      ensures decisionHistoryCapacity == GrownCapacity(old(decisionHistoryCapacity), old(decisionHistorySize))
      ensures decisionHistory == old(decisionHistory) || fresh(decisionHistory)
    {
      ghost var log := History();
      if decisionHistorySize >= decisionHistoryCapacity {
        var newCapacity := decisionHistoryCapacity * 2;
        var newHistory := new int[newCapacity];
        for i := 0 to decisionHistorySize
          modifies newHistory
          invariant newHistory[..i] == decisionHistory[..i]
        {
          newHistory[i] := decisionHistory[i];
        }
        decisionHistory := newHistory;
        decisionHistoryCapacity := newCapacity;
      }
      assert decisionHistory[..decisionHistorySize] == log;
      CapacityAfterBounds(decisionHistorySize + 1);
      decisionHistory[decisionHistorySize] := decisionCode;
      decisionHistorySize := decisionHistorySize + 1;
      assert decisionHistory[..decisionHistorySize] == log + [decisionCode];
    }

    /** Sets one unit type's strength factor, clamped to [0.5, 2.0]; an
     *  invalid unit type changes nothing. */
    method UpdateUnitStrength(unitType: int, newStrength: real)
      requires Valid()
      modifies unitStrengthFactors
      ensures Valid()
      ensures Strengths() == if 0 <= unitType < UnitTypesCount
        then old(Strengths())[unitType := ClampReal(newStrength, MinStrength, MaxStrength)]
        else old(Strengths())
    {
      if unitType >= 0 && unitType < UnitTypesCount {
        var strength := newStrength;
        if strength < MinStrength { strength := MinStrength; }
        if strength > MaxStrength { strength := MaxStrength; }
        unitStrengthFactors[unitType] := strength;
      }
    }

    /** Sets one resource's priority, clamped to [0, 100], and rescales the
     *  table in place so that it adds up to (about) 100. */
    method SetResourcePriority(resourceType: int, priority: int)
      requires Valid()
      modifies resourceAllocation
      ensures Valid()
      ensures Allocation() == SetPriority(old(Allocation()), resourceType, priority)
    {
      SetPriorityKeepsSettled(Allocation(), resourceType, priority);
      if resourceType >= 0 && resourceType < ResourceTypesCount {
        var p := priority;
        if p < 0 { p := 0; }
        if p > 100 { p := 100; }
        resourceAllocation[resourceType] := p;
        var totalPriority := TotalPriority();
        if totalPriority != 100 && totalPriority > 0 {
          RescalePriorities(totalPriority);
        }
      }
    }

    /** The sum loop of setResourcePriority. */
    method TotalPriority() returns (total: int)
      requires resourceAllocation.Length == ResourceTypesCount
      ensures total == Sum(Allocation())
    {
      total := 0;
      for i := 0 to ResourceTypesCount
        invariant total == Sum(resourceAllocation[..i])
      {
        assert resourceAllocation[..i + 1][..i] == resourceAllocation[..i];
        total := total + resourceAllocation[i];
      }
      assert resourceAllocation[..ResourceTypesCount] == resourceAllocation[..];
    }

    /** The rescale loop of setResourcePriority: every entry becomes its
     *  share of 100 of `total`, rounded down. */
    method RescalePriorities(total: int)
      requires total > 0
      modifies resourceAllocation
      ensures Allocation() == Rescaled(old(Allocation()), total)
    {
      for i := 0 to resourceAllocation.Length
        invariant forall j :: 0 <= j < i ==> resourceAllocation[j] == old(resourceAllocation[j]) * 100 / total
        invariant forall j :: i <= j < resourceAllocation.Length ==> resourceAllocation[j] == old(resourceAllocation[j])
      {
        resourceAllocation[i] := (resourceAllocation[i] * 100) / total;
      }
    }

    /** Records the outcome of a tax collection that moved the treasury
     *  from `treasuryBefore` to `treasuryAfter` (the collection itself is
     *  the economy's, outside this model). */
    method MakeTaxDecision(treasuryBefore: int, treasuryAfter: int) returns (decisionCode: int)
      requires Valid()
      modifies this, decisionHistory
      ensures Valid()
      ensures lastTaxCollection == treasuryAfter - treasuryBefore
      ensures decisionCode == TaxCode(lastTaxCollection)
      ensures riskTolerance == RiskAfterTax(old(riskTolerance), lastTaxCollection)
      ensures History() == old(History()) + [decisionCode]
      ensures conflictLevel == old(conflictLevel) && lastArmySize == old(lastArmySize)
      ensures Strengths() == old(Strengths()) && Allocation() == old(Allocation())
    {
      lastTaxCollection := treasuryAfter - treasuryBefore;
      if lastTaxCollection > 500 {
        decisionCode := ExcellentTaxCode;
      } else if lastTaxCollection > 200 {
        decisionCode := SatisfactoryTaxCode;
      } else {
        riskTolerance := riskTolerance + 0.1;
        if riskTolerance > 1.0 { riskTolerance := 1.0; }
        decisionCode := PoorTaxCode;
      }
      AddDecision(decisionCode);
    }

    /** Recruits `recruitCount` soldiers from a population of
     *  `population`, compares the gain with the recruitment target, adapts
     *  risk tolerance and infantry strength, and records code 10 or 11.
     *  Returns the number of people the caller must remove from the
     *  population. */
    method MobilizeArmy(army: Armies.Army, population: int, recruitCount: int)
      returns (decisionCode: int, drafted: int)
      requires Valid()
      modifies this, decisionHistory, unitStrengthFactors, army
      ensures Valid()
      ensures lastArmySize == old(army.soldiers)
      ensures army.State() == Armies.Recruited(old(army.State()), population, recruitCount)
      ensures drafted == Armies.Drafted(old(army.State()), population, recruitCount)
      ensures var target := RecruitmentTarget(old(army.soldiers), population, old(riskTolerance));
        var actual := army.soldiers - old(army.soldiers);
        && decisionCode == RecruitmentCode(actual, target)
        && riskTolerance == RiskAfterRecruitment(old(riskTolerance), actual, target)
        && Strengths() == old(Strengths())[0 := InfantryAfterRecruitment(old(Strengths())[0], actual, target)]
      ensures History() == old(History()) + [decisionCode]
      ensures conflictLevel == old(conflictLevel) && lastTaxCollection == old(lastTaxCollection)
      ensures Allocation() == old(Allocation())
    {
      var armySizeBefore := army.soldiers;
      lastArmySize := armySizeBefore;
      var recruitmentTarget := RecruitmentTarget(armySizeBefore, population, riskTolerance);
      drafted := army.RecruitAndTrain(population, recruitCount);
      var actualRecruitment := army.soldiers - armySizeBefore;
      AssessRecruitment(actualRecruitment, recruitmentTarget);
      decisionCode := if actualRecruitment >= recruitmentTarget then RecruitmentMetCode else RecruitmentShortCode;
      AddDecision(decisionCode);
    }

    /** The outcome branch of mobilizeArmy: a met target strengthens the
     *  infantry, a shortfall below half the target lowers risk tolerance
     *  and weakens the infantry, and a partial success changes nothing. */
    method AssessRecruitment(actualRecruitment: int, recruitmentTarget: int)
      requires Valid()
      modifies this`riskTolerance, unitStrengthFactors
      ensures Valid()
      ensures riskTolerance == RiskAfterRecruitment(old(riskTolerance), actualRecruitment, recruitmentTarget)
      ensures Strengths() == old(Strengths())[0 := InfantryAfterRecruitment(old(Strengths())[0], actualRecruitment, recruitmentTarget)]
    {
      if actualRecruitment >= recruitmentTarget {
        UpdateUnitStrength(0, unitStrengthFactors[0] + 0.1);
      } else if actualRecruitment >= TruncatingDiv(recruitmentTarget, 2) {
      } else {
        riskTolerance := riskTolerance - 0.1;
        if riskTolerance < 0.0 { riskTolerance := 0.0; }
        UpdateUnitStrength(0, unitStrengthFactors[0] - 0.05);
      }
    }

    /** Scores the unrest, answers it by force, by spending or by watching,
     *  lowers the conflict level accordingly and records code 3, 2 or 1.
     *  Returns the gold to be spent from the treasury (0 unless the
     *  economic response was chosen). */
    method HandleInternalConflict(population: int, army: Armies.Army, treasury: int)
      returns (decisionCode: int, appeasementCost: int)
      requires Valid()
      modifies this, decisionHistory, army`morale
      ensures Valid()
      ensures var severity := ConflictSeverity(old(conflictLevel), treasury, population);
        && decisionCode == ResponseCode(Respond(severity))
        && appeasementCost == AppeasementCost(Respond(severity))
        && conflictLevel == ConflictLevelAfter(old(conflictLevel), severity)
        && army.morale == if severity > 7 then Armies.MoraleLowered(old(army.morale), 2) else old(army.morale)
      ensures History() == old(History()) + [decisionCode]
      ensures riskTolerance == old(riskTolerance) && lastTaxCollection == old(lastTaxCollection)
      ensures lastArmySize == old(lastArmySize)
      ensures Strengths() == old(Strengths()) && Allocation() == old(Allocation())
    {
      var severity := ConflictSeverity(conflictLevel, treasury, population);
      appeasementCost := 0;
      if severity > 7 {
        army.LowerMorale(2);
        conflictLevel := conflictLevel - 3;
        decisionCode := MilitaryCode;
      } else if severity > 4 {
        appeasementCost := 100 + (severity * 20);
        conflictLevel := conflictLevel - 2;
        decisionCode := EconomicCode;
      } else {
        conflictLevel := conflictLevel - 1;
        if conflictLevel < 0 { conflictLevel := 0; }
        decisionCode := MonitorCode;
      }
      AddDecision(decisionCode);
      conflictLevel := ClampInt(conflictLevel, 0, 10);
    }
  }
}
