# Stronghold game rules in Dafny

This project models the rule core of *Stronghold*, a turn-based console kingdom game, and proves properties of it. Five components are covered:

- **AI controller.** It keeps an append-only log of decision codes in a hand-doubled array. It holds two fixed tables: unit-strength factors and resource priorities. It keeps two bounded parameters: risk tolerance in [0, 1] and conflict level in [0, 10]. Three decision rules update them: taxation, army mobilisation and internal-conflict handling.
- **History tracker.** A turn counter and a second hand-doubled array of game-state snapshots, plus the progression report built from them.
- **`SimpleArray<T>`.** A five-slot buffer that silently ignores adds once it is full.
- **Army.** Soldiers, morale and food supply, changed by guarded recruitment and by morale losses.
- **Resource manager.** Four stocks (food, wood, stone, iron) with gathering, all-or-nothing consumption and fixed single-resource consumption.

Modules:

| file | module | contents |
|---|---|---|
| `growth.dfy` | `Growth` | the doubling rule shared by both hand-grown arrays (`CapacityAfter`) |
| `decision_rules.dfy` | `DecisionRules` | the controller's pure rules: clamps, C++ truncation, tax tiers, recruitment target and outcome, conflict severity and response, priority renormalisation |
| `ai_controller.dfy` | `AIControl` | class `AIController` with the source's fields and arrays, each method proved against the functions of `DecisionRules` |
| `history_tracker.dfy` | `History` | class `HistoryTracker`, the `Snapshot` record and the report as a value (`ReportOf`) |
| `simple_array.dfy` | `SimpleArrays` | class `SimpleArray<T>` over a five-element `array` |
| `army.dfy` | `Armies` | class `Army` and its specification functions `Recruited` / `Drafted` |
| `resource_manager.dfy` | `Resources` | class `ResourceManager` and its specification functions `Gathered` / `Consumed` / `FixedConsumed` |

Each class keeps the source's fields and updates them in place. Each method's `ensures` ties the new state to a pure function of the old state. The lemmas beside those functions state what the game promises: clamp ranges, tiers, conservation, all-or-nothing behaviour, and index preservation across a resize.

The population and the economy (treasury, taxation, spending) belong to classes that are not part of this model:

- The population total and the treasury enter as parameters.
- A tax collection enters as the treasury before and after it.
- `MobilizeArmy` returns how many people were drafted. `HandleInternalConflict` returns the gold its economic response spends. The caller applies both.

Values read from the console (the recruit count, gathered and consumed amounts) are parameters. Floating-point quantities (risk tolerance, strength factors, tax rate) are exact `real`s. C++ float-to-int casts are modelled as truncation toward zero (`Truncate`). `target / 2` is C++ integer division (`TruncatingDiv`).

## Model

| member | source | states |
|---|---|---|
| Growth.CapacityAfterBounds | aicontroller.cpp:90-110 | after n appends to a fresh array, the capacity doubling from ten gives room for all n items. It is never below 10, stays exactly 10 up to ten items, and stays below 2n beyond that. The same rule governs the snapshot array (historytracker.cpp:51-53) |
| DecisionRules.ClampReal | aicontroller.cpp:115-120 | the stored strength lies in [0.5, 2.0] and is the point of that interval nearest the requested one |
| DecisionRules.ClampInt | aicontroller.cpp:128-130 | the stored priority lies in [0, 100] and is the point of that interval nearest the requested one |
| DecisionRules.Truncate | aicontroller.cpp:61 | a float-to-int cast lies within 1 of its argument, toward zero |
| DecisionRules.TruncatingDiv | aicontroller.cpp:258 | `target / 2` rounds toward zero for either sign of the target |
| DecisionRules.TaxRate | aicontroller.cpp:45-56 | the displayed rate lies in [0.12, 0.25]. It is at most 0.22 for a population above 1000 and at least 0.15 otherwise |
| DecisionRules.TaxCodeTiers | aicontroller.cpp:189-202 | code 20 exactly when more than 500 was collected, 21 exactly for (200, 500], 22 exactly for at most 200. A larger collection never earns a worse code |
| DecisionRules.RiskAfterTaxBounded | aicontroller.cpp:196-201 | risk tolerance stays in [0, 1] and never falls. It changes exactly on a poor collection with room to grow, by +0.1 capped at 1 |
| DecisionRules.RecruitmentTarget | aicontroller.cpp:59-71 | for a non-negative population the target lies between the truncated 5 % base and three times that base |
| DecisionRules.RecruitmentFeedback | aicontroller.cpp:254-274 | code 10 exactly when the target is met, 11 otherwise. Success raises only the infantry strength (by 0.1, clamped). A shortfall below half the target lowers risk by 0.1 (floored at 0) and infantry strength by 0.05 (clamped). A partial success changes nothing. Both parameters stay in range |
| DecisionRules.ConflictSeverity | aicontroller.cpp:74-87 | severity is at most 10 and at most level + 3. It is at least the level when the level is at most 10, equals the level with no pressure, and is at least level + 2 with a treasury under 500 and a level of at most 8 |
| DecisionRules.SeverityMonotone | aicontroller.cpp:76-86 | a higher level, poorer treasury or larger population never lowers the severity |
| DecisionRules.ConflictTiers | aicontroller.cpp:290-328 | code 3 exactly above 7, code 2 exactly in (4, 7] with a cost of 100 + 20·severity (so 200..240 gold), code 1 exactly at 4 or below. Only the economic response spends |
| DecisionRules.ConflictLevelAfterBounded | aicontroller.cpp:298-335 | after handling, the conflict level is in [0, 10], never higher than before, and strictly lower whenever it was positive |
| DecisionRules.SetPriority | aicontroller.cpp:125-148 | the table keeps its four entries. An invalid resource index leaves it unchanged |
| DecisionRules.RescaledSumBounds | aicontroller.cpp:142-146 | the integer-division shares lose less than one unit each: Sum(r)·T ≤ 100·Sum(s) < (Sum(r) + n)·T |
| DecisionRules.RescaledSettled | aicontroller.cpp:142-146 | after renormalisation each of the four priorities is in [0, 100] and their total is in [97, 100] |
| DecisionRules.SetPriorityKeepsSettled | aicontroller.cpp:125-148 | setting a priority keeps every entry in [0, 100] and the total at 0 or in [97, 100]. A raw total of exactly 100 or 0 is left unscaled |
| DecisionRules.RescaledKeepsOrder | aicontroller.cpp:143-145 | renormalisation preserves the order of priorities |
| AIControl.AIController.constructor | aicontroller.cpp:4-28 | risk 0.5, conflict 3, empty log of capacity 10, five strengths of 1.0, four priorities of 25, and the invariant holds |
| AIControl.AIController.AddDecision | aicontroller.cpp:90-110 | the log becomes the old log plus the code, so every earlier code keeps its index and value. Capacity doubles exactly when the log was full, and stays equal to CapacityAfter(size) |
| AIControl.AIController.UpdateUnitStrength | aicontroller.cpp:113-122 | a valid unit type gets the clamped strength and no other entry changes. An invalid one changes nothing |
| AIControl.AIController.SetResourcePriority | aicontroller.cpp:125-148 | the in-place set, sum and rescale loops leave exactly SetPriority of the old table, and the table stays settled |
| AIControl.AIController.TotalPriority | aicontroller.cpp:136-139 | the summing loop returns the total of the priority table, read without changing it |
| AIControl.AIController.RescalePriorities | aicontroller.cpp:142-146 | the rescale loop turns every entry into its share of 100 of the total, rounded down, and touches nothing else |
| AIControl.AIController.MakeTaxDecision | aicontroller.cpp:183-205 | records the collected delta, appends its tier code, and adjusts risk only on a poor collection. Nothing else changes |
| AIControl.AIController.MobilizeArmy | aicontroller.cpp:214-277 | the army recruits as Recruited says and the drafted count is returned. The appended code and the risk and infantry updates follow the recruitment outcome against the target computed before recruiting. The other fields are unchanged |
| AIControl.AIController.AssessRecruitment | aicontroller.cpp:254-268 | the outcome branch of mobilisation: risk tolerance becomes RiskAfterRecruitment and the infantry strength InfantryAfterRecruitment of the old values; no other unit type changes and the invariant holds |
| AIControl.AIController.HandleInternalConflict | aicontroller.cpp:280-340 | appends exactly one code for the severity tier, lowers morale by 2 (floored) only for the military response, returns the appeasement cost, and leaves the conflict level in [0, 10] |
| Armies.Tracked | army.cpp:93-95 | the change is added to the named counter only |
| Armies.MoraleLowered | army.cpp:83-90 | morale drops by the amount, floored at 0 |
| Armies.RecruitmentConserves | army.cpp:23-39 | soldiers plus population are conserved, food falls by exactly 2 per recruit and a non-negative supply stays non-negative, at most the whole population is drafted, and a successful recruitment leaves morale in [0, 100] |
| Armies.RecruitmentRejections | army.cpp:18-28 | an invalid count changes nothing. A food shortage changes only morale, by exactly −10 with no floor. Soldiers change exactly when someone is drafted |
| Armies.Army.constructor | army.cpp:4-8 | 20 soldiers, morale 70, food supply 100 |
| Armies.Army.TrackResourceChange | army.cpp:93-99 | adds the change to the referenced counter only |
| Armies.Army.RecruitAndTrain | army.cpp:11-44 | the new state is Recruited of the old, and the returned drafted count is what the population must lose |
| Armies.Army.LowerMorale | army.cpp:83-90 | only morale changes, to MoraleLowered of the old morale |
| Resources.Tracked | resourcemanager.cpp:12-18 | the change is added to the named stock only |
| Resources.ResourceNamed | resourcemanager.cpp:128-139 | each of "food", "wood", "stone", "iron" (and only it) names its resource |
| Resources.ConsumeUndoesGather | resourcemanager.cpp:39-89 | consuming what was just gathered restores the stocks, and so does gathering back a successful consumption |
| Resources.ConsumeAllOrNothing | resourcemanager.cpp:63-89 | either every stock falls by its request or none moves. No stock rises on consumption or falls on gathering, so non-negative stocks stay non-negative |
| Resources.FixedConsumedTouchesOnlyNamed | resourcemanager.cpp:128-144 | only the named stock can change, by exactly the amount and only when it holds that much. An unknown name changes nothing. The unchecked sign lets a negative amount raise a stock |
| Resources.ResourceManager.constructor | resourcemanager.cpp:4-9 | food 500, wood 300, stone 200, iron 100 |
| Resources.ResourceManager.TrackResourceChange | resourcemanager.cpp:12-18 | adds the change to the referenced stock only |
| Resources.ResourceManager.GatherResources | resourcemanager.cpp:39-60 | the new stocks are Gathered of the old: unchanged if any amount is negative, otherwise each raised by its amount |
| Resources.ResourceManager.ConsumeResources | resourcemanager.cpp:63-89 | the new stocks are Consumed of the old: all or nothing |
| Resources.ResourceManager.ConsumeFixed | resourcemanager.cpp:128-144 | the new stocks are FixedConsumed of the old |
| SimpleArrays.AddedAllKeepsFirstFive | Stronghold.h:324-330 | any sequence of adds keeps exactly the first five values ever added, in order. Later values are dropped and earlier ones are never overwritten |
| SimpleArrays.SimpleArray.constructor | Stronghold.h:327 | a new container is empty |
| SimpleArrays.SimpleArray.Add | Stronghold.h:328-330 | appends while fewer than five are stored. When full, nothing changes |
| SimpleArrays.SimpleArray.Get | Stronghold.h:331 | reads the slot. Below the size it is the item added at that position |
| SimpleArrays.SimpleArray.Set | Stronghold.h:331 | writes the slot through the returned reference and changes nothing else |
| SimpleArrays.SimpleArray.GetSize | Stronghold.h:332 | returns the number of stored items, at most five |
| History.DisplayLabel | historytracker.cpp:115-119 | a shown label has at most 30 characters. A label over 30 becomes its first 27 characters followed by "...". A shorter one is shown verbatim |
| History.DisplayLabelStable | historytracker.cpp:115-119 | showing an already shown label changes nothing, and a shown label is the original or a prefix of it plus "..." |
| History.Summary | historytracker.cpp:128-162 | eight distinctly named lines. The k-th compares the k-th measure of the oldest and newest snapshot, its delta is last − first, and it carries "+" exactly when the delta is not negative |
| History.ReportOf | historytracker.cpp:86-163 | no history exactly when there are no snapshots. Otherwise one row per snapshot, in order, and a summary exactly when there are at least two |
| History.ReportFaithful | historytracker.cpp:96-162 | each row carries its snapshot's turn and numbers with a label of at most 30 characters. Each summary delta is the newest measure minus the oldest |
| History.HistoryTracker.constructor | historytracker.cpp:5-12 | capacity 10, no snapshots, turn 1 |
| History.HistoryTracker.ResizeSnapshotsArray | historytracker.cpp:22-44 | doubles the capacity and keeps every snapshot at its index |
| History.HistoryTracker.TakeSnapshot | historytracker.cpp:47-72 | appends exactly one snapshot of the current turn with the given state's values. It resizes only when full, keeps earlier snapshots, and keeps the turn-order invariant |
| History.HistoryTracker.NextTurn | historytracker.cpp:75-78 | the turn rises by exactly 1 and nothing else changes |
| History.HistoryTracker.GetCurrentTurn | historytracker.cpp:170-172 | returns the current turn, which is at least 1 |
| History.HistoryTracker.DisplayProgressionReport | historytracker.cpp:81-167 | the read-only loop builds exactly ReportOf of the stored snapshots |

## Left out

- Console input and output:
  - every `cin` read, `showStats`, the decision-report strings, the table layout (`setw`) and the banners;
  - the report is a value (rows and change lines), not text.
- `saveToFile` / `loadFromFile` and the game saver (GameSaver.cpp, GameSaver.h): file I/O. `main.cpp`'s menu loop and `ResourceManager::manage`: dispatch over console input.
- Population, Economy, Bank, EventManager and Leader are not part of this model:
  - `pop.getTotal()`, `eco.getTreasury()` and the effect of `eco.taxPopulation` enter as parameters;
  - `pop.decrease` and `eco.spend` are left to the caller, which receives the drafted count and the appeasement cost.
- IEEE single-precision rounding: risk tolerance, strength factors and rates are exact reals, so sums such as 0.5 + 0.1 + 0.1 are exact here.
- The per-segment tax rates and the strength and priority listings in the reports (aicontroller.cpp:159-179, 225-229): display only.
- `tempAllocation` in army mobilisation (aicontroller.cpp:232-241): computed and discarded.
- `new` / `delete`, destructors and the allocation-failure `exit(1)` in the snapshot resize: memory management. Arrays here are garbage-collected.
- The defensive `i >= capacity` break in the report loop (historytracker.cpp:97-100): it cannot fire while the array is well formed, which `Valid()` guarantees.
- `SimpleArrays.SimpleArray.Get`: requires an index in [0, 5); `operator[]` checks no bounds, and an index outside the buffer is undefined behaviour in C++. Slots at or above the size hold `T`'s default value, where C++ leaves them uninitialised.
- 32-bit overflow of the `int` counters is not modelled: integers are unbounded.
- `DecisionRules.RecruitmentTarget`: the code truncates twice. First `pop * 0.05` is cast to int, then the scaled product is cast. The model follows this rather than a single floor of the full product.
- `DecisionRules.RescaledSettled`: proves the renormalised total lies in [97, 100]. Rounding can never push it above 100.
- `AIControl.AIController.HandleInternalConflict`: the final upper clamp `conflictLevel > 10` cannot fire, since every response lowers the level. It is written as one `ClampInt` assignment rather than two branches.
- `History.DisplayLabel`: labels are measured and cut in characters here. `std::string::length` and `substr` (historytracker.cpp:116-117) count bytes, so a label with multi-byte characters would be cut at a different point in the source. The labels the game passes are ASCII, where the two agree.
