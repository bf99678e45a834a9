/** The decision rules of the AI controller as pure functions: clamps,
 *  the tax, recruitment and conflict outcome tables, the recruitment
 *  target, and the proportional renormalisation of resource priorities.
 *  Floating-point values of the source (risk tolerance, strength
 *  factors, rates) are exact reals here. */
module DecisionRules {

  /** Five unit types: infantry, cavalry, archers, siege, special. */
  const UnitTypesCount: nat := 5
  /** Four resource types: gold, food, wood, stone. */
  const ResourceTypesCount: nat := 4

  const MinStrength: real := 0.5
  const MaxStrength: real := 2.0

  // Decision codes appended to the decision log.
  const MonitorCode: int := 1
  const EconomicCode: int := 2
  const MilitaryCode: int := 3
  const RecruitmentMetCode: int := 10
  const RecruitmentShortCode: int := 11
  const ExcellentTaxCode: int := 20
  const SatisfactoryTaxCode: int := 21
  const PoorTaxCode: int := 22

  // ---------------------------------------------------------------- clamps

  function RealDistance(a: real, b: real): real
  {
    if a >= b then a - b else b - a
  }

  function IntDistance(a: int, b: int): int
  {
    if a >= b then a - b else b - a
  }

  /** Clamping to [lo, hi] gives the point of the interval nearest to x. */
  function ClampReal(x: real, lo: real, hi: real): (r: real)
    requires lo <= hi
    ensures lo <= r <= hi
    ensures forall y :: lo <= y <= hi ==> RealDistance(r, x) <= RealDistance(y, x)
  {
    if x < lo then lo else if x > hi then hi else x
  }

  /** Clamping to [lo, hi] gives the point of the interval nearest to x. */
  function ClampInt(x: int, lo: int, hi: int): (r: int)
    requires lo <= hi
    ensures lo <= r <= hi
    ensures forall y :: lo <= y <= hi ==> IntDistance(r, x) <= IntDistance(y, x)
  {
    if x < lo then lo else if x > hi then hi else x
  }

  /** C++ conversion of a float to int: truncation toward zero. */
  function Truncate(x: real): (n: int)
    ensures RealDistance(n as real, x) < 1.0
    ensures x >= 0.0 ==> 0.0 <= n as real <= x
    ensures x < 0.0 ==> x <= n as real <= 0.0
  {
    if x >= 0.0 then x.Floor else -((-x).Floor)
  }

  /** C++ integer division by a positive divisor: truncation toward zero. */
  function TruncatingDiv(a: int, b: int): (q: int)
    requires b > 0
    ensures a >= 0 ==> q * b <= a < q * b + b
    ensures a < 0 ==> q * b - b < a <= q * b
  {
    if a >= 0 then a / b else -((-a) / b)
  }

  // ------------------------------------------------------------- taxation

  /** Display-only tax rate: 10% base, plus 2% for a population above
   *  1000 or 5% otherwise, plus a tenth of the risk tolerance. */
  function TaxRate(population: int, riskTolerance: real): (rate: real)
    requires 0.0 <= riskTolerance <= 1.0
    ensures 0.12 <= rate <= 0.25
    ensures population > 1000 ==> rate <= 0.22
    ensures population <= 1000 ==> 0.15 <= rate
  {
    0.1 + (if population > 1000 then 0.02 else 0.05) + riskTolerance * 0.1
  }

  /** Decision code of a tax collection that raised the treasury by `collected`. */
  function TaxCode(collected: int): (code: int)
    ensures code in {ExcellentTaxCode, SatisfactoryTaxCode, PoorTaxCode}
  {
    if collected > 500 then ExcellentTaxCode
    else if collected > 200 then SatisfactoryTaxCode
    else PoorTaxCode
  }

  /** After a poor collection the controller becomes bolder by 0.1, capped at 1. */
  function RiskAfterTax(riskTolerance: real, collected: int): real
    requires 0.0 <= riskTolerance <= 1.0
  {
    if collected > 200 then riskTolerance
    else if riskTolerance + 0.1 > 1.0 then 1.0
    else riskTolerance + 0.1
  }

  /** The three tax tiers partition the possible collections, and a larger
   *  collection never earns a worse code. */
  lemma TaxCodeTiers(collected: int, more: int)
    requires collected <= more
    ensures TaxCode(collected) == ExcellentTaxCode <==> collected > 500
    ensures TaxCode(collected) == SatisfactoryTaxCode <==> 200 < collected <= 500
    ensures TaxCode(collected) == PoorTaxCode <==> collected <= 200
    ensures TaxCode(more) <= TaxCode(collected)
  {
  }

  /** Risk tolerance stays in [0, 1]; it never falls, and it moves exactly
   *  when the collection was poor and there was room to grow, by 0.1 or up
   *  to the cap. */
  lemma RiskAfterTaxBounded(riskTolerance: real, collected: int)
    requires 0.0 <= riskTolerance <= 1.0
    ensures 0.0 <= RiskAfterTax(riskTolerance, collected) <= 1.0
    ensures riskTolerance <= RiskAfterTax(riskTolerance, collected)
    ensures RiskAfterTax(riskTolerance, collected) != riskTolerance
        <==> TaxCode(collected) == PoorTaxCode && riskTolerance < 1.0
    ensures TaxCode(collected) == PoorTaxCode
        ==> RiskAfterTax(riskTolerance, collected) == ClampReal(riskTolerance + 0.1, 0.0, 1.0)
  {
  }

  // ---------------------------------------------------------- recruitment

  /** Recruitment target: 5% of the population (truncated), scaled by 1.5
   *  for an army under 100 soldiers and by 1 + risk tolerance, truncated
   *  again. It lies between the 5% base and three times that base. */
  function RecruitmentTarget(soldiers: int, population: int, riskTolerance: real): (target: int)
    requires 0.0 <= riskTolerance <= 1.0
    ensures population >= 0 ==> Truncate(population as real * 0.05) <= target
    ensures population >= 0 ==> target <= 3 * Truncate(population as real * 0.05)
  {
    var baseRecruitment := Truncate(population as real * 0.05);
    var armySizeFactor := if soldiers < 100 then 1.5 else 1.0;
    var riskFactor := 1.0 + riskTolerance;
    var scaled := baseRecruitment as real * armySizeFactor * riskFactor;
    if population >= 0 then
      ScaledBounds(baseRecruitment as real, armySizeFactor, riskFactor);
      TruncateBetween(baseRecruitment, scaled);
      Truncate(scaled)
    else
      Truncate(scaled)
  }

  /** Factors of at most 1.5 and 2 scale a non-negative base to at most
   *  three times itself, and factors of at least 1 never shrink it. */
  lemma ScaledBounds(b: real, armySizeFactor: real, riskFactor: real)
    requires 0.0 <= b && 1.0 <= armySizeFactor <= 1.5 && 1.0 <= riskFactor <= 2.0
    ensures b <= b * armySizeFactor * riskFactor <= b * 3.0
  {
    var bf := b * armySizeFactor;
    assert b <= bf by { RealMulMono(b, 1.0, armySizeFactor); }
    assert bf <= b * 1.5 by { RealMulMono(b, armySizeFactor, 1.5); }
    assert bf <= bf * riskFactor by { RealMulMono(bf, 1.0, riskFactor); }
    assert bf * riskFactor <= bf * 2.0 by { RealMulMono(bf, riskFactor, 2.0); }
  }

  lemma TruncateBetween(n: int, x: real)
    requires 0 <= n && n as real <= x <= n as real * 3.0
    ensures n <= Truncate(x) <= 3 * n
  {
    assert (3 * n) as real == n as real * 3.0;
  }

  lemma RealMulMono(a: real, x: real, y: real)
    requires 0.0 <= a && x <= y
    ensures a * x <= a * y
  {
  }

  function RecruitmentCode(actual: int, target: int): int
  {
    if actual >= target then RecruitmentMetCode else RecruitmentShortCode
  }

  /** The recruitment fell short even of half the target. */
  predicate RecruitmentFailed(actual: int, target: int)
  {
    actual < target && actual < TruncatingDiv(target, 2)
  }

  /** A failed recruitment makes the controller more cautious by 0.1, floored at 0. */
  function RiskAfterRecruitment(riskTolerance: real, actual: int, target: int): real
  {
    if RecruitmentFailed(actual, target) then
      (if riskTolerance - 0.1 < 0.0 then 0.0 else riskTolerance - 0.1)
    else riskTolerance
  }

  /** Infantry strength rises by 0.1 on success and falls by 0.05 on failure, clamped. */
  function InfantryAfterRecruitment(strength: real, actual: int, target: int): real
  {
    if actual >= target then ClampReal(strength + 0.1, MinStrength, MaxStrength)
    else if RecruitmentFailed(actual, target) then ClampReal(strength - 0.05, MinStrength, MaxStrength)
    else strength
  }

  /** Code 10 exactly when the target was met. A met target only
   *  strengthens the infantry; a partial success changes nothing; a
   *  failure only weakens both parameters; all stay in their ranges. */
  lemma RecruitmentFeedback(riskTolerance: real, strength: real, actual: int, target: int)
    requires 0.0 <= riskTolerance <= 1.0 && MinStrength <= strength <= MaxStrength
    ensures RecruitmentCode(actual, target) == RecruitmentMetCode <==> actual >= target
    ensures RecruitmentCode(actual, target) == RecruitmentShortCode <==> actual < target
    ensures 0.0 <= RiskAfterRecruitment(riskTolerance, actual, target) <= 1.0
    ensures MinStrength <= InfantryAfterRecruitment(strength, actual, target) <= MaxStrength
    ensures actual >= target ==>
      RiskAfterRecruitment(riskTolerance, actual, target) == riskTolerance
      && InfantryAfterRecruitment(strength, actual, target) >= strength
    ensures actual < target && !RecruitmentFailed(actual, target) ==>
      RiskAfterRecruitment(riskTolerance, actual, target) == riskTolerance
      && InfantryAfterRecruitment(strength, actual, target) == strength
    ensures RecruitmentFailed(actual, target) ==>
      RiskAfterRecruitment(riskTolerance, actual, target) <= riskTolerance
      && InfantryAfterRecruitment(strength, actual, target) <= strength
  {
  }

  // ------------------------------------------------------------- conflict

  /** Conflict severity: the conflict level, raised by 2 when the treasury
   *  is below 500 and by 1 when the population exceeds 1000, capped at 10. */
  function ConflictSeverity(conflictLevel: int, treasury: int, population: int): (severity: int)
    ensures severity <= 10
    ensures severity <= conflictLevel + 3
    ensures conflictLevel <= 10 ==> conflictLevel <= severity
    ensures treasury >= 500 && population <= 1000 && conflictLevel <= 10 ==> severity == conflictLevel
    ensures treasury < 500 && conflictLevel <= 8 ==> conflictLevel + 2 <= severity
  {
    var treasuryFactor := if treasury < 500 then 2 else 0;
    var popFactor := if population > 1000 then 1 else 0;
    var raw := conflictLevel + treasuryFactor + popFactor;
    if raw > 10 then 10 else raw
  }

  /** A poorer treasury, a larger population or a higher conflict level
   *  never lowers the severity. */
  lemma SeverityMonotone(level: int, treasury: int, population: int,
                         level': int, treasury': int, population': int)
    requires level <= level' && treasury' <= treasury && population <= population'
    ensures ConflictSeverity(level, treasury, population) <= ConflictSeverity(level', treasury', population')
  {
  }

  /** The three responses to internal conflict. */
  datatype ConflictResponse =
    | Military                      // lower army morale by 2
    | Economic(appeasementCost: int) // spend on public works and relief
    | Monitor                       // watch only

  function Respond(severity: int): (response: ConflictResponse)
  {
    if severity > 7 then Military
    else if severity > 4 then Economic(100 + severity * 20)
    else Monitor
  }

  function ResponseCode(response: ConflictResponse): int
  {
    match response
    case Military => MilitaryCode
    case Economic(_) => EconomicCode
    case Monitor => MonitorCode
  }

  /** How much each response lowers the conflict level. */
  function Relief(response: ConflictResponse): int
  {
    match response
    case Military => 3
    case Economic(_) => 2
    case Monitor => 1
  }

  /** Gold spent by a response (only the economic one spends). */
  function AppeasementCost(response: ConflictResponse): int
  {
    if response.Economic? then response.appeasementCost else 0
  }

  /** Conflict level after handling a conflict of the given severity. */
  function ConflictLevelAfter(conflictLevel: int, severity: int): int
  {
    ClampInt(conflictLevel - Relief(Respond(severity)), 0, 10)
  }

  /** The tiers: above 7 the military response (code 3), in (4, 7] the
   *  economic one (code 2) costing between 200 and 240 gold, otherwise
   *  monitoring (code 1). */
  lemma ConflictTiers(severity: int)
    requires severity <= 10
    ensures ResponseCode(Respond(severity)) == MilitaryCode <==> severity > 7
    ensures ResponseCode(Respond(severity)) == EconomicCode <==> 4 < severity <= 7
    ensures ResponseCode(Respond(severity)) == MonitorCode <==> severity <= 4
    ensures Respond(severity).Economic? ==>
      AppeasementCost(Respond(severity)) == 100 + 20 * severity
      && 200 <= AppeasementCost(Respond(severity)) <= 240
    ensures !Respond(severity).Economic? ==> AppeasementCost(Respond(severity)) == 0
  {
  }

  /** Handling a conflict keeps the level in [0, 10], never raises it, and
   *  strictly lowers it whenever it was positive. */
  lemma ConflictLevelAfterBounded(conflictLevel: int, severity: int)
    requires 0 <= conflictLevel <= 10
    ensures 0 <= ConflictLevelAfter(conflictLevel, severity) <= conflictLevel
    ensures conflictLevel > 0 ==> ConflictLevelAfter(conflictLevel, severity) < conflictLevel
  {
  }

  // ---------------------------------------------------- resource priorities

  /** Sum of a table, added from the front as the source's loop does. */
  function Sum(s: seq<int>): int
  {
    if |s| == 0 then 0 else Sum(s[..|s| - 1]) + s[|s| - 1]
  }

  predicate NonNegative(s: seq<int>)
  {
    forall i :: 0 <= i < |s| ==> 0 <= s[i]
  }

  predicate InPercentRange(s: seq<int>)
  {
    forall i :: 0 <= i < |s| ==> 0 <= s[i] <= 100
  }

  /** Every entry scaled to a share of 100 of `total`, rounding down. */
  function Rescaled(s: seq<int>, total: int): (r: seq<int>)
    requires total > 0
    ensures |r| == |s|
  {
    seq(|s|, i requires 0 <= i < |s| => s[i] * 100 / total)
  }

  /** Rescale unless the total is already 100 or is 0. */
  function Normalised(s: seq<int>): seq<int>
  {
    var total := Sum(s);
    if total != 100 && total > 0 then Rescaled(s, total) else s
  }

  /** Priority table after setting one resource's priority: an invalid
   *  index leaves the table as it was; otherwise the slot gets the
   *  priority clamped to [0, 100] and the table is renormalised. */
  function SetPriority(table: seq<int>, resourceType: int, priority: int): (r: seq<int>)
    ensures |r| == |table|
    ensures !(0 <= resourceType < |table|) ==> r == table
  {
    if 0 <= resourceType < |table| then
      Normalised(table[resourceType := ClampInt(priority, 0, 100)])
    else table
  }

  /** A priority table as the controller keeps it: each entry in [0, 100]
   *  and the total either 0 or within integer-division rounding of 100. */
  predicate Settled(table: seq<int>)
  {
    |table| == ResourceTypesCount && InPercentRange(table)
    && (Sum(table) == 0 || 97 <= Sum(table) <= 100)
  }

  lemma {:induction false} SumOfNonNegative(s: seq<int>, i: int)
    requires NonNegative(s) && 0 <= i < |s|
    ensures 0 <= s[i] <= Sum(s)
  {
    var n := |s| - 1;
    assert NonNegative(s[..n]);
    if i < n {
      SumOfNonNegative(s[..n], i);
      assert s[..n][i] == s[i];
    } else if n > 0 {
      SumOfNonNegative(s[..n], 0);
    }
  }

  lemma DivisionBounds(n: int, d: int)
    requires d > 0
    ensures (n / d) * d <= n < (n / d) * d + d
  {
    assert n == (n / d) * d + n % d;
  }

  lemma MulRight(a: int, b: int, c: int)
    requires a <= b && 0 <= c
    ensures a * c <= b * c
  {
  }

  /** One step of the summation in RescaledSumBounds: adding an entry x and
   *  its share q, which loses less than one unit, keeps both bounds. */
  lemma RescaledStep(a: int, q: int, sum: int, x: int, n: int, total: int)
    requires total > 0
    requires a * total <= 100 * sum && 100 * sum + n <= (a + n) * total
    requires q * total <= x * 100 < q * total + total
    ensures (a + q) * total <= 100 * (sum + x)
    ensures 100 * (sum + x) + (n + 1) <= (a + q + n + 1) * total
  {
    assert (a + q) * total == a * total + q * total;
    assert (a + q + n + 1) * total == (a + n) * total + (q + 1) * total;
    assert (q + 1) * total == q * total + total;
  }

  /** Summed, the rounded-down shares lose less than one unit each:
   *  Sum(r) * total <= 100 * Sum(s) < (Sum(r) + |s|) * total. */
  lemma {:induction false} RescaledSumBounds(s: seq<int>, total: int)
    requires total > 0 && NonNegative(s)
    ensures Sum(Rescaled(s, total)) * total <= 100 * Sum(s)
    ensures 100 * Sum(s) + |s| <= (Sum(Rescaled(s, total)) + |s|) * total
  {
    if |s| > 0 {
      var n := |s| - 1;
      var init := s[..n];
      assert NonNegative(init);
      RescaledSumBounds(init, total);
      var r := Rescaled(s, total);
      assert r[..n] == Rescaled(init, total);
      var q := s[n] * 100 / total;
      assert Sum(r) == Sum(Rescaled(init, total)) + q;
      DivisionBounds(s[n] * 100, total);
      RescaledStep(Sum(Rescaled(init, total)), q, Sum(init), s[n], n, total);
    }
  }

  lemma {:induction false} SumNonNegative(s: seq<int>)
    requires NonNegative(s)
    ensures 0 <= Sum(s)
  {
    if |s| > 0 {
      assert NonNegative(s[..|s| - 1]);
      SumNonNegative(s[..|s| - 1]);
    }
  }

  /** The renormalised shares each stay in [0, 100] and add up to between
   *  97 and 100 (four entries lose less than one unit each). */
  lemma RescaledSettled(s: seq<int>)
    requires |s| == ResourceTypesCount && NonNegative(s) && Sum(s) > 0
    ensures InPercentRange(Rescaled(s, Sum(s)))
    ensures 97 <= Sum(Rescaled(s, Sum(s))) <= 100
  {
    var total := Sum(s);
    var r := Rescaled(s, total);
    forall i | 0 <= i < |s|
      ensures 0 <= r[i] <= 100
    {
      SumOfNonNegative(s, i);
      DivisionBounds(s[i] * 100, total);
      MulRight(s[i], total, 100);
      if r[i] > 100 {
        MulRight(101, r[i], total);
      }
    }
    RescaledSumBounds(s, total);
    var t := Sum(r);
    if t > 100 {
      MulRight(101, t, total);
    }
    if t < 97 {
      MulRight(t + 4, 100, total);
    }
  }

  /** Setting a priority keeps the table settled; a raw total of exactly
   *  100 or 0 is kept as it is. Rounding never pushes the total above 100. */
  lemma SetPriorityKeepsSettled(table: seq<int>, resourceType: int, priority: int)
    requires Settled(table)
    ensures Settled(SetPriority(table, resourceType, priority))
    ensures 0 <= resourceType < |table| ==>
      var raw := table[resourceType := ClampInt(priority, 0, 100)];
      (Sum(raw) == 100 || Sum(raw) == 0 ==> SetPriority(table, resourceType, priority) == raw)
  {
    if 0 <= resourceType < |table| {
      var raw := table[resourceType := ClampInt(priority, 0, 100)];
      assert InPercentRange(raw);
      SumNonNegative(raw);
      if Sum(raw) != 100 && Sum(raw) > 0 {
        RescaledSettled(raw);
      }
    }
  }

  /** Renormalisation keeps the order of priorities: a resource that was
   *  not less important than another still is not. */
  lemma RescaledKeepsOrder(s: seq<int>, total: int, i: int, j: int)
    requires total > 0 && 0 <= i < |s| && 0 <= j < |s| && s[i] <= s[j]
    ensures Rescaled(s, total)[i] <= Rescaled(s, total)[j]
  {
    var a, b := s[i] * 100, s[j] * 100;
    DivisionBounds(a, total);
    DivisionBounds(b, total);
    if a / total > b / total {
      MulRight(b / total + 1, a / total, total);
    }
  }
}
