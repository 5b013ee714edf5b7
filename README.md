# Swarm-Control-in-sc2bot: decision and allocation core in Dafny

This project models the decision-and-allocation core of a StarCraft II Zerg
bot and proves properties of the model. It also covers the small rule engines
and text helpers that surround the bot.

Modules:

- **Intel** (`Intel.dfy`): the fact blackboard. An `IntelManager` holds one
  `IntelFacts` record. `UpdateFromObs` overwrites all thirteen fields from an
  observation dictionary, renaming keys and falling back to per-key defaults.
  `Reset` restores the record's defaults.
- **Strategy** (`Strategy.dfy`): the strategy classifier. It is a first-match
  chain of six guarded rules plus a default, over closed sets of modes, tech
  focuses and priorities. A table of `(guard, decision)` rules with a generic
  first-match interpreter is its independent reference.
- **Tasks** (`Tasks.dfy`): the swarm task allocator. With no threats the first
  three units scout; otherwise units are paired with threats for defence.
- **Resources** (`Resources.dfy`): the worker allocator.
  - The game is a snapshot `World`: drones, town halls, mineral fields and
    extractors.
  - Every stage turns the snapshot into a sequence of `Gather` or `Move`
    commands. Issuing a command changes nothing in the snapshot during the
    pass.
  - The throttled control loop runs four stages in order: idle workers,
    per-base mineral balancing, cross-base balancing, gas saturation.
  - Each stage that loops in the source is a method proved equal to a
    function. The stated properties are proved about those functions.
- **Training** (`Training.dfy`): the training helpers.
  - the two-state adaptive difficulty;
  - the game-time history, capped at 100 entries, and its statistics;
  - the error counter with capped exponential backoff;
  - the checkpoint predicate.
- **AccessControl** (`AccessControl.dfy`): the API-key allow-list check for IP
  addresses, CIDR-looking entries and `*.` domain wildcards.
- **UsageLimiter** (`UsageLimiter.dfy`): the API-key usage limiter.
  - a usage table keyed by date strings (`YYYY-MM-DD`) and hour strings
    (`YYYY-MM-DD-HH`);
  - daily and hourly limits;
  - pruning by string comparison against a cutoff key;
  - lemmas that fixed-width keys compare as their dates do.
- **PyText**, **AddEncoding**, **FixEncodings**: the two tools that add a
  `# -*- coding: utf-8 -*-` declaration to Python files.
  - PyText holds Python's `str.split('\n')`/`'\n'.join` and the
    case-insensitive `coding[:=]\s*utf-?8` search.
  - The two tools are proved to agree, and each is proved idempotent.
- **Wrappers**, **SeqUtil**: `Option`, `Min`, `Max`, `Take` and `Last`.

Modelling choices:

- Distances are squared Euclidean distances over real coordinates. A strict
  `DistSq < r*r` stands for python-sc2's `closer_than`. `closest_to` returns
  the first element at minimal distance.
- Supply shares such as `used < cap * 0.7` are scaled integers: `10*used < 7*cap`.
- Python's `str <` is the lexicographic order `LexLt`.
- The collaborators become parameters:
  - the limiter's "now" keys and its 30-days-ago cutoff;
  - the access-control allow-lists;
  - the world snapshot and its `time`.

- `get_resource_efficiency` and cross-base balancing count `bot.workers`,
  which for this Zerg bot are its drones: the model counts `w.drones`.
- Some specification functions carry no contract of their own and have no
  row below. Their methods and lemmas state their properties:
  - `Resources.DistributionCommands` (`OptimizeBaseWorkerDistribution`);
  - `Resources.GasCommands` (`AssignGasWorkers`, `GasStageQuietWhenBalanced`);
  - `Resources.OptimizationCommands` (`ResourceManager.OptimizeResourceGathering`);
  - `Training.ErrorKey`, the `f"{error_type}:{context}"` key (`TrainingErrorHandler.HandleError`);
  - `Training.ShouldSaveCheckpoint` (`OneCheckpointPerTen`);
  - `AddEncoding.HasEncoding`, `has_encoding` in add_encoding_to_files.py:16-24
    (`AnyLineDeclaresAt`, `AnyLineDeclaresWitness`);
  - `AddEncoding.AddEncoding`, `add_encoding` in add_encoding_to_files.py:27-40
    (`InsertsOneLine`, `AddedIsDeclared`, `AddEncodingIdempotent`);
  - `FixEncodings.HasEncodingDeclaration`, `has_encoding_declaration` in
    fix_file_encodings.py:22-31 (`SameCheck`);
  - `FixEncodings.AddEncodingDeclaration`, `add_encoding_declaration` in
    fix_file_encodings.py:34-53 (`SameTransform`, `FixIdempotent`).

Behaviours of the code the model keeps as written:

- `_assign_workers_to_minerals` takes free drones in the order of the drone
  list. It does not take idle drones first (`resource_manager.py:242-250`).
- Cross-base balancing re-analyses both bases for each pair. It sends
  `workers_to_move[:1]` from the same unchanged snapshot each time, so one
  surplus base gives the same drone (its first miner) one order per deficit
  base. `Resources.RowMovesSameDrone` proves this.
- The mineral target subtracts `target_gas_workers * WORKERS_PER_GAS`, where
  `target_gas_workers` already counts workers. This double multiplication is
  harmless once the target is clamped to [14, 16]: the result is 16 with no
  ready extractor and 14 otherwise (`Resources.TargetMineralsByExtractors`).

## Model

| member | source | states |
|---|---|---|
| `Intel.DefaultFacts` | src/bot/strategy/intel_manager.py:9-24 | all flags false, tech level, resources, supply, army and enemy bases 0, our base count 1, both times 0.0 |
| `Intel.FactsFromObs` | src/bot/strategy/intel_manager.py:39-60 | each field is read from its renamed key (`minerals`→ourMinerals, `food_cap`→ourSupplyCap, …) and falls back to its own default when the key is absent (`food_cap` 15, `base_count` 1, the rest 0/False/0.0); it takes no previous facts, so nothing of them survives |
| `Intel.GetInt` | src/bot/strategy/intel_manager.py:46-51 | an int value is read as is; a missing key gives the default |
| `Intel.GetReal` | src/bot/strategy/intel_manager.py:52-60 | a float value is read as such; a missing key gives the default |
| `Intel.GetFlag` | src/bot/strategy/intel_manager.py:55-57 | a bool value is read as is; a missing key gives the default |
| `Intel.ExtraKeysIgnored` | src/bot/strategy/intel_manager.py:46-60 | adding keys outside the thirteen read ones to an observation never changes the facts |
| `Intel.EmptyUpdateVersusReset` | src/bot/strategy/intel_manager.py:46-64 | an update from `{}` equals the reset record except the supply cap, which is 15 after the update and 0 after the reset |
| `Intel.IntelManager.constructor` | src/bot/strategy/intel_manager.py:35-37 | a fresh manager holds the default facts |
| `Intel.IntelManager.UpdateFromObs` | src/bot/strategy/intel_manager.py:39-60 | after the call the facts equal `FactsFromObs(obs)`, a function of `obs` alone, so a second identical call changes nothing |
| `Intel.IntelManager.Reset` | src/bot/strategy/intel_manager.py:62-64 | after the call the facts equal the defaults |
| `Strategy.Classify` | src/bot/strategy/strategy_manager.py:44-106 | (defend) iff rush; anti-air iff not rush and air with army < 20; expand, mixed army and all-in each iff its guard holds and every earlier guard fails; an eco mode is always (eco, ground, economy) |
| `Strategy.RuleTable` | src/bot/strategy/strategy_manager.py:53-99 | the six guarded rules in source order |
| `Strategy.FirstMatchWins` | src/bot/strategy/strategy_manager.py:53-106 | a first-match chain returns rule k's decision when rule k's guard holds and no earlier guard does |
| `Strategy.FirstMatchFallback` | src/bot/strategy/strategy_manager.py:102-106 | when no guard holds the chain returns the default |
| `Strategy.ClassifyIsFirstMatch` | src/bot/strategy/strategy_manager.py:44-106 | the classifier equals the first-match interpretation of the rule table with default (eco, ground, economy) |
| `Strategy.LaterRulesIrrelevant` | src/bot/strategy/strategy_manager.py:53-106 | two fact records that agree on the guards up to the first firing rule get the same decision |
| `Strategy.RushDominates` | src/bot/strategy/strategy_manager.py:54-59 | an enemy rush gives (defend, ground, defense) whatever the other facts are |
| `Strategy.AirBelowTwenty` | src/bot/strategy/strategy_manager.py:62-67 | no rush, enemy air and army < 20 give (army, anti_air, defense) |
| `Strategy.ExpandNeeds` | src/bot/strategy/strategy_manager.py:78-83 | expand is chosen only with minerals ≥ 300, bases < 3 and used < 0.7·cap |
| `Strategy.MixedArmyNeeds` | src/bot/strategy/strategy_manager.py:86-91 | (army, mixed, production) is chosen only with minerals ≥ 300 and used < 0.9·cap |
| `Strategy.AllInNeeds` | src/bot/strategy/strategy_manager.py:94-99 | all-in is chosen only with army > 50 and used ≥ 0.9·cap |
| `Strategy.ZeroCapBlocksGrowth` | src/bot/strategy/strategy_manager.py:78-86 | with supply cap 0 and non-negative supply used, neither expand nor the mixed army can be chosen |
| `Strategy.DefaultEqualsLowEconomy` | src/bot/strategy/strategy_manager.py:70-106 | the low-economy rule and the default give the same decision, and facts matching no rule exist |
| `Strategy.StrategyManager.constructor` | src/bot/strategy/strategy_manager.py:30-37 | the manager keeps the intel manager it is given |
| `Strategy.StrategyManager.Facts` | src/bot/strategy/strategy_manager.py:39-42 | the facts are the intel manager's current record |
| `Strategy.StrategyManager.Decide` | src/bot/strategy/strategy_manager.py:44-106 | the decision is the classification of the current facts and reads them without writing |
| `Tasks.ScoutPoint` | src/bot/swarm/task_allocator.py:48 | the i-th scouting target is (10 + 5i, 10 + 5i) |
| `Tasks.TaskAllocator.constructor` | src/bot/swarm/task_allocator.py:26-28 | a fresh allocator has no tasks |
| `Tasks.TaskAllocator.AllocateTasks` | src/bot/swarm/task_allocator.py:30-64 | with no threats: min(3, \|units\|) scout tasks, task i at scouting point i with priority 2; with threats: min(\|threats\|, \|units\|) defend tasks, task i at threat i's position (default (0, 0)) with unit i and priority 1; each task carries one unit id (its "id", else the index); the result replaces the stored tasks |
| `Resources.SelectSites` | wicked_zerg_challenger/local_training/resource_manager.py:161-171 | a selection keeps only admitted sites and is no longer than the list |
| `Resources.SelectSitesKeeps` | wicked_zerg_challenger/local_training/resource_manager.py:161-171 | every admitted site of the list is in the selection |
| `Resources.SelectSitesAppend` | wicked_zerg_challenger/local_training/resource_manager.py:161-171 | selecting from a concatenation selects from each part in turn, so the sites keep their list order |
| `Resources.SelectSitesDrawn` | wicked_zerg_challenger/local_training/resource_manager.py:161-171 | a selection is a sub-multiset of the list: only listed sites, none more often than listed |
| `Resources.SelectSitesFirst` | wicked_zerg_challenger/local_training/resource_manager.py:292-294 | a selection is empty iff no site is admitted, and its head is the first admitted site in list order (`.first`, `[0]`) |
| `Resources.MineralsNear` | wicked_zerg_challenger/local_training/resource_manager.py:115 | every selected mineral field lies strictly within 15 of the point |
| `Resources.ExtractorsNear` | wicked_zerg_challenger/local_training/resource_manager.py:167 | every selected extractor lies strictly within 10 of the point |
| `Resources.ClosestIndex` | wicked_zerg_challenger/local_training/resource_manager.py:112-117 | `closest_to` picks an index of the non-empty list |
| `Resources.ClosestIsNearest` | wicked_zerg_challenger/local_training/resource_manager.py:112-117 | the picked element is at minimal distance and no earlier element is as near |
| `Resources.TargetsOneOfExists` | wicked_zerg_challenger/local_training/resource_manager.py:198-205 | a drone targets one of the fields iff its order target is the tag of some field of the list |
| `Resources.SelectDrones` | wicked_zerg_challenger/local_training/resource_manager.py:243-250 | a drone selection keeps only admitted drones and is no longer than the list |
| `Resources.SelectDronesKeeps` | wicked_zerg_challenger/local_training/resource_manager.py:243-250 | every admitted drone of the list is in the selection |
| `Resources.SelectDronesAppend` | wicked_zerg_challenger/local_training/resource_manager.py:243-250 | selecting from a concatenation selects from each part in turn, so the drones keep their list order |
| `Resources.SelectDronesDrawn` | wicked_zerg_challenger/local_training/resource_manager.py:243-250 | a selection is a sub-multiset of the drone list |
| `Resources.AdmittedDronesSplit` | wicked_zerg_challenger/local_training/resource_manager.py:198-205 | the admitted positions of a list are those of its front plus the last position when admitted, which is new |
| `Resources.SelectDronesCount` | wicked_zerg_challenger/local_training/resource_manager.py:198-205 | a selection has exactly one entry per admitted position, so each drone is counted once |
| `Resources.GatherClosest` | wicked_zerg_challenger/local_training/resource_manager.py:258-261 | one gather per drone, each to the field nearest that drone |
| `Resources.GatherAll` | wicked_zerg_challenger/local_training/resource_manager.py:289-298 | one gather per drone, all to the same target |
| `Resources.TargetsMineral` | wicked_zerg_challenger/local_training/resource_manager.py:198-205 | the inner search over fields answers true iff the drone targets one of them |
| `Resources.MineralWorkerCount` | wicked_zerg_challenger/local_training/resource_manager.py:189-207 | the count is the number of drone positions whose drone is gathering with a truthy target naming a field within 15; 0 without fields |
| `Resources.NoMinersWithoutFields` | wicked_zerg_challenger/local_training/resource_manager.py:199-205 | no drone counts as a miner of an empty field list |
| `Resources.GasWorkerCount` | wicked_zerg_challenger/local_training/resource_manager.py:209-231 | the count is the number of drone positions whose drone is gathering with a target among the tags of extractors within 10; 0 without such extractors |
| `Resources.CountMineralWorkers` | wicked_zerg_challenger/local_training/resource_manager.py:189-207 | the counting loop returns the mineral-worker count |
| `Resources.CountGasWorkers` | wicked_zerg_challenger/local_training/resource_manager.py:209-231 | the counting loop returns the gas-worker count |
| `Resources.AnalyzeBase` | wicked_zerg_challenger/local_training/resource_manager.py:158-187 | gas target is 3 per ready extractor within 10; mineral and gas targets sum to 16; the total is miners plus gas workers; no extractor means no gas workers |
| `Resources.IdleCommand` | wicked_zerg_challenger/local_training/resource_manager.py:110-121 | a gather to the field nearest the drone when a field lies within 15 of the nearest town hall, else a move to that town hall |
| `Resources.IdleOrders` | wicked_zerg_challenger/local_training/resource_manager.py:109-121 | one order per drone, in order |
| `Resources.IdleCommands` | wicked_zerg_challenger/local_training/resource_manager.py:95-123 | at most 10 orders, none without town halls, otherwise exactly min(10, idle drones), the i-th for the i-th idle drone |
| `Resources.IdleOrderGoesToNearestField` | wicked_zerg_challenger/local_training/resource_manager.py:112-118 | the base chosen is the nearest town hall, and a gather order names the nearest field among those within 15 of it |
| `Resources.HandleIdleWorkers` | wicked_zerg_challenger/local_training/resource_manager.py:95-123 | the loop issues exactly the idle-worker orders |
| `Resources.IdleOrderFor` | wicked_zerg_challenger/local_training/resource_manager.py:110-121 | the order given to one idle drone is the idle order the specification names for it |
| `Resources.TargetMinerals` | wicked_zerg_challenger/local_training/resource_manager.py:138-139 | the mineral target is always within [14, 16] |
| `Resources.TargetMineralsByExtractors` | wicked_zerg_challenger/local_training/resource_manager.py:138-139 | with the double multiplication the target is 16 with no ready extractor and 14 otherwise |
| `Resources.AssignToMineralsOrders` | wicked_zerg_challenger/local_training/resource_manager.py:233-264 | nothing for a non-positive count or no nearby fields; otherwise min(count, free drones) gathers, each to an idle drone or a non-gathering drone farther than 20 from the base, sent to the field nearest it |
| `Resources.AssignWorkersToMinerals` | wicked_zerg_challenger/local_training/resource_manager.py:233-264 | the loop issues exactly those orders |
| `Resources.CollectFreeDrones` | wicked_zerg_challenger/local_training/resource_manager.py:243-250 | the scan collects exactly the free drones (idle, or not gathering and farther than 20), in drone order |
| `Resources.SendToClosest` | wicked_zerg_challenger/local_training/resource_manager.py:258-264 | the order loop sends each chosen drone, in order, to the field closest to it, and nothing else |
| `Resources.FirstReadyExtractor` | wicked_zerg_challenger/local_training/resource_manager.py:292-294 | none iff no ready extractor lies within 10 of the base; otherwise the first such extractor in list order |
| `Resources.OtherBase` | wicked_zerg_challenger/local_training/resource_manager.py:302-304 | none iff every town hall is the base; otherwise the first other town hall in list order, not the nearest |
| `Resources.ReassignOrder` | wicked_zerg_challenger/local_training/resource_manager.py:290-309 | an order exists iff there is a destination (whatever the drone); with room at the first ready extractor it is a gather there, otherwise a gather to the field nearest the drone among those within 15 of the first other town hall |
| `Resources.ReassignOrders` | wicked_zerg_challenger/local_training/resource_manager.py:289-311 | either every drone gets its reassignment order, in order, or none does |
| `Resources.ReassignExcessOrders` | wicked_zerg_challenger/local_training/resource_manager.py:266-311 | nothing for a non-positive excess; otherwise min(excess, miners) orders when there is a destination, the i-th being the reassignment order of the base's i-th miner in drone order |
| `Resources.ReassignFillsOneExtractor` | wicked_zerg_challenger/local_training/resource_manager.py:289-298 | while the first ready extractor is below its ideal, every surplus miner is sent to it, because its harvester count is never updated in the loop |
| `Resources.ReassignExcessWorkers` | wicked_zerg_challenger/local_training/resource_manager.py:266-311 | the loop issues exactly the reassignment orders |
| `Resources.CollectMiners` | wicked_zerg_challenger/local_training/resource_manager.py:276-285 | the scan (repeated at lines 196-205 and 356-365) collects exactly the drones gathering from one of the given fields, in drone order |
| `Resources.ReassignOne` | wicked_zerg_challenger/local_training/resource_manager.py:290-309 | the order (or none) for one excess drone is its reassignment order |
| `Resources.BaseOrders` | wicked_zerg_challenger/local_training/resource_manager.py:133-152 | nothing when target ≤ current ≤ target + 2; below the target min(target − current, free drones) orders when fields exist; above target + 2 exactly current − target orders (not current − target − 2) when there is a destination |
| `Resources.ExcessGoesToExtractor` | wicked_zerg_challenger/local_training/resource_manager.py:149-152 | above target + 2 with room at the first ready extractor, the base sends its first current − target miners, exactly that many, all to that extractor |
| `Resources.OptimizeBase` | wicked_zerg_challenger/local_training/resource_manager.py:134-152 | one base's pass issues exactly its orders |
| `Resources.OptimizeBaseWorkerDistribution` | wicked_zerg_challenger/local_training/resource_manager.py:125-156 | the pass issues the per-base orders of every town hall in order |
| `Resources.BaseTotals` | wicked_zerg_challenger/local_training/resource_manager.py:323-326 | one (base, total workers) entry per base, in order |
| `Resources.UpperBound` | wicked_zerg_challenger/local_training/resource_manager.py:329 | the stable insertion point of a total in a sorted list |
| `Resources.InsertByTotal` | wicked_zerg_challenger/local_training/resource_manager.py:329 | insertion keeps the list sorted by total |
| `Resources.SortByTotal` | wicked_zerg_challenger/local_training/resource_manager.py:329 | the sort by total gives a sorted list of the same length |
| `Resources.SortByTotalPermutes` | wicked_zerg_challenger/local_training/resource_manager.py:329 | the sort is a permutation |
| `Resources.InsertStable` | wicked_zerg_challenger/local_training/resource_manager.py:329 | inserting an entry places it after every entry of the same total, leaving their order |
| `Resources.SortByTotalStable` | wicked_zerg_challenger/local_training/resource_manager.py:329 | the sort is stable like `list.sort`: for every total, the entries carrying it keep their input order |
| `Resources.BasesAbove` | wicked_zerg_challenger/local_training/resource_manager.py:338 | the excess list holds only entries of the list above the bound |
| `Resources.BasesBelow` | wicked_zerg_challenger/local_training/resource_manager.py:339 | the deficit list holds only entries of the list below the bound |
| `Resources.BasesAboveKeeps` | wicked_zerg_challenger/local_training/resource_manager.py:338 | every entry above the bound is in the excess list |
| `Resources.BasesAboveAppend` | wicked_zerg_challenger/local_training/resource_manager.py:338 | the excess filter distributes over concatenation, so the sorted order is kept |
| `Resources.BasesBelowKeeps` | wicked_zerg_challenger/local_training/resource_manager.py:339 | every entry below the bound is in the deficit list |
| `Resources.BasesBelowAppend` | wicked_zerg_challenger/local_training/resource_manager.py:339 | the deficit filter distributes over concatenation, so the sorted order is kept |
| `Resources.MoveOrders` | wicked_zerg_challenger/local_training/resource_manager.py:349-379 | nothing when the target base has no field within 15; otherwise exactly min(`count`, miners of the source base) orders, the i-th moving the i-th miner of the source base to the field of the target base nearest it |
| `Resources.MoveWorkerBetweenBases` | wicked_zerg_challenger/local_training/resource_manager.py:349-379 | the loop issues exactly those orders |
| `Resources.SortedTotals` | wicked_zerg_challenger/local_training/resource_manager.py:323-329 | one entry per town hall, sorted by total |
| `Resources.BalanceCommands` | wicked_zerg_challenger/local_training/resource_manager.py:313-320 | nothing with fewer than two bases |
| `Resources.MovesFromBase` | wicked_zerg_challenger/local_training/resource_manager.py:342-347 | the inner loop issues one surplus base's moves toward every deficit base |
| `Resources.Redistribute` | wicked_zerg_challenger/local_training/resource_manager.py:332-347 | the spread test and the pair loops issue exactly the balancing plan |
| `Resources.BalanceWorkersAcrossBases` | wicked_zerg_challenger/local_training/resource_manager.py:313-347 | the stage issues exactly the balancing plan |
| `Resources.CollectBaseTotals` | wicked_zerg_challenger/local_training/resource_manager.py:323-326 | the scan pairs every town hall, in order, with its total worker count |
| `Resources.SortKeepsTotals` | wicked_zerg_challenger/local_training/resource_manager.py:323-329 | sorting keeps every entry's total equal to its base's total |
| `Resources.SpliceKeepsTotals` | wicked_zerg_challenger/local_training/resource_manager.py:323-329 | inserting an entry that carries its base's total into entries that carry theirs keeps every total correct |
| `Resources.SortedTotalsCarryTotals` | wicked_zerg_challenger/local_training/resource_manager.py:323-329 | every entry of the sorted totals carries its own base's total |
| `Resources.RecheckPasses` | wicked_zerg_challenger/local_training/resource_manager.py:338-347 | for a base over avg + 2 against bases under avg − 2, the re-check `excess > deficit + 2` always passes |
| `Resources.PairsRecheckPasses` | wicked_zerg_challenger/local_training/resource_manager.py:338-347 | over all pairs, the plan equals the plan without the re-check |
| `Resources.NoDeficitNoMoves` | wicked_zerg_challenger/local_training/resource_manager.py:341-347 | without deficit bases no move is planned |
| `Resources.BalanceGuardsRedundant` | wicked_zerg_challenger/local_training/resource_manager.py:332-347 | over sorted totals, the plan with the `max − min > 4` test and the re-check equals one move from every base over avg + 2 toward every base under avg − 2 |
| `Resources.AllOrderAppend` | wicked_zerg_challenger/local_training/resource_manager.py:341-347 | orders all for one drone stay so under concatenation |
| `Resources.OneMoveFirstMiner` | wicked_zerg_challenger/local_training/resource_manager.py:355-377 | a one-worker move is at most one order, for the base's first miner; when the source base has a miner and the target base has fields it is exactly that miner's gather to the target field nearest it |
| `Resources.UnguardedRowOnePerBase` | wicked_zerg_challenger/local_training/resource_manager.py:342-377 | without the re-check, a surplus base with a miner sends exactly one order per deficit base with fields, in order, each moving its first miner to that base's field nearest it; a base without miners sends none |
| `Resources.BalancingRowOnePerBase` | wicked_zerg_challenger/local_training/resource_manager.py:338-347 | in the balancing, a base over avg + 2 with a miner moves exactly one worker toward each base under avg − 2 that has fields, as stated above |
| `Resources.RowMovesSameDrone` | wicked_zerg_challenger/local_training/resource_manager.py:342-377 | all orders one surplus base sends go to the same drone, its first miner, one per deficit base at most |
| `Resources.ToGasOrders` | wicked_zerg_challenger/local_training/resource_manager.py:403-440 | nothing for a non-positive count or no town hall; otherwise min(count, candidates) gathers at the extractor, the i-th for the i-th drone that is idle or mining a field within 15 of the town hall nearest the extractor |
| `Resources.GasToMineralsOrders` | wicked_zerg_challenger/local_training/resource_manager.py:442-474 | nothing for a non-positive count, no town hall or no home field; otherwise min(count, gas workers) orders, the i-th sending the extractor's i-th gatherer to the home field nearest it |
| `Resources.ExtractorOrders` | wicked_zerg_challenger/local_training/resource_manager.py:387-399 | nothing when balanced or without town halls; below the ideal the first candidates go to the extractor, up to the shortfall; above ideal + 1 the first gatherers go to their nearest home field, up to the surplus |
| `Resources.HomeFields` | wicked_zerg_challenger/local_training/resource_manager.py:416-420 | every home field lies within 15 of the town hall nearest the extractor |
| `Resources.AssignWorkersToGas` | wicked_zerg_challenger/local_training/resource_manager.py:403-440 | the loop issues exactly the gas orders |
| `Resources.CollectGasCandidates` | wicked_zerg_challenger/local_training/resource_manager.py:419-431 | the scan collects exactly the idle drones and the drones mining near the base, in drone order |
| `Resources.ReassignGasWorkersToMinerals` | wicked_zerg_challenger/local_training/resource_manager.py:442-474 | the loop issues exactly the gas-to-minerals orders |
| `Resources.CollectGasWorkers` | wicked_zerg_challenger/local_training/resource_manager.py:452-455 | the scan collects exactly the drones gathering from the extractor, in drone order |
| `Resources.AssignGasWorkers` | wicked_zerg_challenger/local_training/resource_manager.py:381-401 | the stage issues the orders of every ready extractor in order |
| `Resources.BalancedExtractorsAreQuiet` | wicked_zerg_challenger/local_training/resource_manager.py:387-399 | extractors all within one of their ideal give no orders |
| `Resources.GasStageQuietWhenBalanced` | wicked_zerg_challenger/local_training/resource_manager.py:381-401 | when every ready extractor is balanced the gas stage queues nothing |
| `Resources.ExtractorOrdersFor` | wicked_zerg_challenger/local_training/resource_manager.py:387-399 | one extractor gets gas orders below its ideal, mineral orders above ideal + 1, and none otherwise |
| `Resources.ResourceEfficiency` | wicked_zerg_challenger/local_training/resource_manager.py:476-502 | zeros with no base; otherwise workers per base is drones/bases and efficiency is min(1, workers per base / 16), equal to 1 iff drones ≥ 16·bases |
| `Resources.ResourceManager.constructor` | wicked_zerg_challenger/local_training/resource_manager.py:60-64 | last optimisation time 0, interval 2.0, no base assignments |
| `Resources.ResourceManager.OptimizeResourceGathering` | wicked_zerg_challenger/local_training/resource_manager.py:66-93 | within the interval nothing is issued and the stamp is kept; otherwise the stamp becomes the time and the four stages' orders are issued in order |
| `Training.NextDifficulty` | wicked_zerg_challenger/tools/training_improvements.py:49-65 | unchanged below 10 games; Hard becomes VeryHard iff win rate ≥ 0.7; VeryHard becomes Hard iff win rate ≤ 0.4 |
| `Training.MiddleBandIsStable` | wicked_zerg_challenger/tools/training_improvements.py:56-65 | win rates strictly between 0.4 and 0.7 never change the difficulty |
| `Training.TooFewGamesIsStable` | wicked_zerg_challenger/tools/training_improvements.py:51-52 | fewer than 10 games never change the difficulty |
| `Training.AdaptiveDifficultyManager.constructor` | wicked_zerg_challenger/tools/training_improvements.py:42-47 | base and current difficulty are Hard |
| `Training.AdaptiveDifficultyManager.Update` | wicked_zerg_challenger/tools/training_improvements.py:49-65 | the new difficulty is the transition of the old one and is returned |
| `Training.MinOf` | wicked_zerg_challenger/tools/training_improvements.py:88 | the minimum is an element and bounds all elements from below |
| `Training.MaxOf` | wicked_zerg_challenger/tools/training_improvements.py:89 | the maximum is an element and bounds all elements from above |
| `Training.SumBetween` | wicked_zerg_challenger/tools/training_improvements.py:87 | a sum of values in [lo, hi] lies in [n·lo, n·hi] |
| `Training.MeanBetween` | wicked_zerg_challenger/tools/training_improvements.py:87-90 | a mean of values in [lo, hi] lies in [lo, hi] |
| `Training.StatsOf` | wicked_zerg_challenger/tools/training_improvements.py:81-91 | all zeros for an empty history; otherwise min and max are elements bounding every entry, and the average and recent average lie between them |
| `Training.AverageIsMean` | wicked_zerg_challenger/tools/training_improvements.py:81-91 | `avg_time` times the number of games is the sum of the times |
| `Training.RecentAverageIsMean` | wicked_zerg_challenger/tools/training_improvements.py:81-91 | `recent_avg` is present and, times min(10, games), is the sum of the last ten (or all) times |
| `Training.LastAppend` | wicked_zerg_challenger/tools/training_improvements.py:76-79 | keeping the last 100 after an append equals appending and dropping the oldest when over 100 |
| `Training.TrainingPerformanceMonitor.constructor` | wicked_zerg_challenger/tools/training_improvements.py:71-73 | an empty history |
| `Training.TrainingPerformanceMonitor.RecordGame` | wicked_zerg_challenger/tools/training_improvements.py:75-79 | the history stays the last ≤ 100 recorded times in arrival order and ends with the new one |
| `Training.TrainingPerformanceMonitor.GetStats` | wicked_zerg_challenger/tools/training_improvements.py:81-91 | the statistics of the current history |
| `Training.Backoff` | wicked_zerg_challenger/tools/training_improvements.py:149-160 | (False, 0) once the count exceeds 5; otherwise continue with a wait in (0, 30] |
| `Training.BackoffSchedule` | wicked_zerg_challenger/tools/training_improvements.py:150-160 | the waits for counts 1..5 are 2, 4, 8, 16, 30 and count 6 stops |
| `Training.Kept` | wicked_zerg_challenger/tools/training_improvements.py:162-166 | exactly the keys not containing the context survive, with their counts |
| `Training.EmptyContextClearsAll` | wicked_zerg_challenger/tools/training_improvements.py:162-166 | the empty context clears every key |
| `Training.TrainingErrorHandler.constructor` | wicked_zerg_challenger/tools/training_improvements.py:133-136 | no counts |
| `Training.TrainingErrorHandler.HandleError` | wicked_zerg_challenger/tools/training_improvements.py:137-160 | the key "type:context" goes up by exactly 1, nothing else changes, and the answer is the backoff of the new count |
| `Training.TrainingErrorHandler.ResetErrorCount` | wicked_zerg_challenger/tools/training_improvements.py:162-166 | the table keeps exactly the keys not containing the context |
| `Training.OneCheckpointPerTen` | wicked_zerg_challenger/tools/training_improvements.py:203-205 | every ten consecutive game counts hold exactly one checkpoint |
| `UsageLimiter.Bump` | wicked_zerg_challenger/tools/api_key_usage_limiter.py:76-81 | one key goes up by 1 (from 0 when absent) and every other entry is kept |
| `UsageLimiter.Prune` | wicked_zerg_challenger/tools/api_key_usage_limiter.py:83-85 | exactly the keys not below the cutoff survive, with their values |
| `UsageLimiter.ApiKeyUsageLimiter.constructor` | wicked_zerg_challenger/tools/api_key_usage_limiter.py:18-30 | the limits and the loaded table are kept |
| `UsageLimiter.ApiKeyUsageLimiter.CanMakeRequest` | wicked_zerg_challenger/tools/api_key_usage_limiter.py:52-72 | allowed iff both counts are below their limits (absent keys count 0); the daily refusal is reported first, then the hourly one |
| `UsageLimiter.ApiKeyUsageLimiter.RecordRequest` | wicked_zerg_challenger/tools/api_key_usage_limiter.py:74-87 | date and hour counts go up by 1; afterwards every key is ≥ the cutoff and every other surviving key keeps its value |
| `UsageLimiter.ApiKeyUsageLimiter.GetCurrentUsage` | wicked_zerg_challenger/tools/api_key_usage_limiter.py:89-100 | the current date and hour counts (0 when absent) with both limits |
| `UsageLimiter.Pad` | wicked_zerg_challenger/tools/api_key_usage_limiter.py:59-61 | a zero-padded field has exactly its width |
| `UsageLimiter.DateKey` | wicked_zerg_challenger/tools/api_key_usage_limiter.py:60 | a date key is 10 characters |
| `UsageLimiter.LexLtAppend` | wicked_zerg_challenger/tools/api_key_usage_limiter.py:83-85 | order of equal-length prefixes decides the order of extensions |
| `UsageLimiter.LexLtSamePrefix` | wicked_zerg_challenger/tools/api_key_usage_limiter.py:83-85 | a shared prefix keeps the order of the rest |
| `UsageLimiter.PrefixLexLe` | wicked_zerg_challenger/tools/api_key_usage_limiter.py:83-85 | a string is ≤ every extension of it |
| `UsageLimiter.LexLtLeTrans` | wicked_zerg_challenger/tools/api_key_usage_limiter.py:83-85 | ≤ on strings is transitive |
| `UsageLimiter.PadOrder` | wicked_zerg_challenger/tools/api_key_usage_limiter.py:59-61 | zero-padded numbers of one width compare as the numbers do |
| `UsageLimiter.DateKeyOrder` | wicked_zerg_challenger/tools/api_key_usage_limiter.py:84-85 | an earlier or equal day has a date key ≤ the later one |
| `UsageLimiter.YearDecides` | wicked_zerg_challenger/tools/api_key_usage_limiter.py:84-85 | keys whose equal-length years differ are ordered by the year whatever follows |
| `UsageLimiter.MonthDecides` | wicked_zerg_challenger/tools/api_key_usage_limiter.py:84-85 | under the same year, keys are ordered by the month whatever follows |
| `UsageLimiter.DayDecides` | wicked_zerg_challenger/tools/api_key_usage_limiter.py:84-85 | under the same year and month, keys are ordered by the day |
| `UsageLimiter.YearKeyOrder` | wicked_zerg_challenger/tools/api_key_usage_limiter.py:84-85 | a day whose padded year sorts first has a date key that sorts first |
| `UsageLimiter.MonthKeyOrder` | wicked_zerg_challenger/tools/api_key_usage_limiter.py:84-85 | within a year, a day whose padded month sorts first has a date key that sorts first |
| `UsageLimiter.DayKeyOrder` | wicked_zerg_challenger/tools/api_key_usage_limiter.py:84-85 | within a month, a day whose padded day sorts no later has a date key that sorts no later |
| `UsageLimiter.HourKeyExtendsDateKey` | wicked_zerg_challenger/tools/api_key_usage_limiter.py:60-61 | the hour key is the date key, '-', the padded hour; it differs from and is ≥ the date key |
| `UsageLimiter.CurrentKeysSurvive` | wicked_zerg_challenger/tools/api_key_usage_limiter.py:76-85 | with the cutoff day not after now, both current keys are ≥ the cutoff and survive pruning |
| `AccessControl.BeforeSlash` | wicked_zerg_challenger/tools/api_key_access_control.py:95 | the part before the first '/', the whole string without one |
| `AccessControl.CidrLoop` | wicked_zerg_challenger/tools/api_key_access_control.py:91-96 | the CIDR loop matches iff some entry matches |
| `AccessControl.DomainLoop` | wicked_zerg_challenger/tools/api_key_access_control.py:101-109 | the domain loop matches iff some entry matches |
| `AccessControl.ApiKeyAccessControl.IsAllowed` | wicked_zerg_challenger/tools/api_key_access_control.py:69-115 | allowed iff both lists are empty, or a given ip equals an entry or its part before '/', or a given domain matches an entry |
| `AccessControl.CidrIsExactAddress` | wicked_zerg_challenger/tools/api_key_access_control.py:91-96 | an "a/n" entry admits exactly "a" and the entry text itself; there is no range matching |
| `AccessControl.WildcardMatches` | wicked_zerg_challenger/tools/api_key_access_control.py:103-107 | "*.base" matches base itself and every domain ending in ".base" |
| `AccessControl.AnonymousRefused` | wicked_zerg_challenger/tools/api_key_access_control.py:111-113 | with any non-empty list, a request with neither ip nor domain is refused |
| `PyText.Split` | wicked_zerg_challenger/tools/add_encoding_to_files.py:18 | splitting on '\n' gives at least one line and no line holds '\n' |
| `PyText.SplitJoin` | wicked_zerg_challenger/tools/add_encoding_to_files.py:33-38 | joining one-line strings and splitting again gives them back |
| `PyText.JoinSplit` | wicked_zerg_challenger/tools/add_encoding_to_files.py:33-38 | splitting and joining again gives the text back |
| `PyText.SplitLeadingLine` | wicked_zerg_challenger/tools/add_encoding_to_files.py:18 | a leading line and '\n' split off as the first line |
| `PyText.SplitOneLine` | wicked_zerg_challenger/tools/add_encoding_to_files.py:18 | a string without '\n' splits into itself |
| `PyText.EmptyContained` | wicked_zerg_challenger/tools/training_improvements.py:164 | the empty string is contained in every string |
| `PyText.ExactPrefixFolds` | wicked_zerg_challenger/tools/add_encoding_to_files.py:20-23 | an exact prefix also matches case-insensitively |
| `PyText.SearchFindsSuffix` | wicked_zerg_challenger/tools/add_encoding_to_files.py:20-23 | a declaration found at any position is found by the search |
| `PyText.DeclarationDeclares` | wicked_zerg_challenger/tools/add_encoding_to_files.py:20-23 | the inserted line `# -*- coding: utf-8 -*-` is itself a declaration and one line |
| `AddEncoding.AnyLineDeclaresAt` | wicked_zerg_challenger/tools/add_encoding_to_files.py:18-23 | a declaring line makes the scan succeed |
| `AddEncoding.AnyLineDeclaresWitness` | wicked_zerg_challenger/tools/add_encoding_to_files.py:18-23 | a successful scan has a declaring line |
| `AddEncoding.InsertsOneLine` | wicked_zerg_challenger/tools/add_encoding_to_files.py:27-40 | without a declaration, exactly one line is inserted (second after a shebang, first otherwise) and all original lines are kept in order |
| `AddEncoding.AddedIsDeclared` | wicked_zerg_challenger/tools/add_encoding_to_files.py:16-40 | the result always has a declaration |
| `AddEncoding.AddEncodingIdempotent` | wicked_zerg_challenger/tools/add_encoding_to_files.py:27-40 | applying the tool twice equals applying it once |
| `FixEncodings.Insert` | wicked_zerg_challenger/tools/fix_file_encodings.py:46-49 | `list.insert`: one element longer, the element at min(i, length), earlier elements in place and later ones shifted by one |
| `FixEncodings.SameCheck` | wicked_zerg_challenger/tools/fix_file_encodings.py:22-31 | the fixer's declaration check is the adder's check |
| `FixEncodings.SameTransform` | wicked_zerg_challenger/tools/fix_file_encodings.py:34-53 | the fixer's transform equals the adder's for every content and path; the strip test never matters |
| `FixEncodings.FixIdempotent` | wicked_zerg_challenger/tools/fix_file_encodings.py:34-53 | declared content is returned unchanged, and the result is declared and a fixed point |

## Left out

- The python-sc2 runtime, `async`/`await` and `bot.do` are replaced by the
  snapshot and the returned command list. A command python-sc2 would reject,
  or an exception caught by a `try/except: pass`, is not modelled: every
  planned command is issued.
- An exception in one stage of the control loop ends the pass in the
  source. The model always runs all four stages.
- Two orders for the same drone within one pass are both kept in the command
  list. Which one the game applies is not modelled.
- The rate-limited `print` logging (`iteration % 200`) is not modelled, and
  neither is the Python logger.
- Floating point: distances, shares and statistics are exact reals. Float
  rounding (for instance of `sum/len` or of `2.0 ** n`) is not modelled.
- Intel: observation values are Python ints, bools or floats; a value of
  any other type is outside the model. A float under an integer key reads as
  the key's default, and a bool under it as 0 or 1. An int or a bool under a
  float key reads as its numeric value. An int or a float under a flag key
  reads as its truth value. In each of these cases the source would store
  the raw value.
- Resources: the snapshot's `time` defaults to 0 when the bot has none
  (`getattr(self.bot, "time", 0)`). `MAX_WORKERS` is declared and never
  used. `current_gas_workers` is computed and never used. `base_assignments`
  is kept but never read.
- Resources.BaseOrders: below the target, the number of orders is stated
  (the needed count, or fewer when fewer drones are free); which drones go
  where is stated by `AssignToMineralsOrders`. Above target + 2, the number
  is stated, and the orders themselves by `ReassignExcessOrders` and
  `ExcessGoesToExtractor`.
- Training: `TrainingStateManager` (JSON file I/O), `get_progress_summary`
  (wall clock and text formatting) and `improve_training_config` (a constant
  dictionary) are not part of this model.
- UsageLimiter: JSON persistence and `datetime.now()` are not modelled. The
  date key, hour key and 30-days-ago cutoff key are parameters. The lemmas
  about key order cover the key format, not the calendar arithmetic of
  `timedelta`.
- AccessControl: reading the allow-lists from `config/allowed_ips.txt` and
  `config/allowed_domains.txt` is not modelled. Those readers keep the
  stripped lines that are non-empty and not comments, and give an empty
  list when a file is missing or unreadable. Here the lists are constructor
  arguments.
- The encoding tools' file handling is not modelled, only the string
  transforms. That covers reading and writing the files (including
  `errors='ignore'` in add_encoding_to_files.py). It also covers
  `fix_file_encoding`'s fallback decoding as cp949, latin-1 or iso-8859-1
  and its re-saving as UTF-8, for `.py` files and for `.bat`, `.txt`, `.md`
  and `.json` files, and the directory walk of both tools.
