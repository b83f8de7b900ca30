# Screeps colony core: lab tables, utilities and the advanced room roles

This project models three parts of a Screeps bot:

- **The static tables in `src/setting.ts`.**
  - `reactionSource` maps every lab compound to its two substrates.
  - `labTarget` is the standing lab production plan.
  - `FACTORY_LOCK_AMOUNT` holds the factory's stock thresholds.
  - `LAB_STATE` lists the lab cluster's states, and `creepDefaultMemory` is a new creep's memory.
- **The helpers in `src/utils.ts`.**
  - The pure ones: `getOppositeDirection`, `calcBodyPart` and `getCreepName`.
  - Three routines that change the global `Memory`: `globalSay` rotates `Memory.sayIndex`, `clearFlag` drops stale `Memory.flags` entries, and `whiteListFilter` counts white-listed intruders.
- **The role hooks in `src/roles.advanced.ts`.**
  - The `transfer` role fills spawns, extensions and towers.
  - The `centerTransfer` role carries out the room's logistics task, reporting progress to `handleTask`.

Files:

- `wrappers.dfy`: `Option`.
- `setting.dfy`, module `Setting`. Resources are a structured datatype (raw minerals, the compound families per element, energy, anything else). `ReactionSource` is the 34-entry table in source order. `Rank` is an independent tier formula. `ReactionSourceLayered` ties each product's rank to its substrates' ranks, and that gives the termination measure for the recursive `Expand`.
- `utils.dfy`, module `Utils`. Pure functions for the expression helpers. A `Memory` class with the fields the three routines update in place.
- `roles.dfy`, module `RolesAdvanced`.
  - `Room` is a class holding the current task and the amounts reported to `handleTask`.
  - `Creep` is a class holding a store, a position and the log of host calls it issued.
  - The host primitives are methods whose outcome the hooks do not control:
    - `withdraw` and `transfer` return any status. On success they move any amount of the named resource, up for `withdraw` and down for `transfer`, and leave every other resource alone.
    - `moveTo` returns nothing and only records the request.
    - `findClosestByRange` returns one of its candidates, or nothing when there are none.

## Model

| member | source | states |
|---|---|---|
| Setting.ReactionSource | src/setting.ts:257-296 | every entry has exactly two substrates, and both are lab resources (neither energy nor anything outside the reaction graph) |
| Setting.ReactionSourceLayered | src/setting.ts:257-296 | the table is layered: each product is exactly one tier above its higher substrate, and resources without an entry are tier 0 |
| Setting.SubstrateRankBelow | src/setting.ts:257-296 | every substrate is of a strictly lower tier than its product, and no tier exceeds five |
| Setting.ProductsAreNonRawCompounds | src/setting.ts:257-296 | a resource has an entry exactly when it is a lab compound other than the seven raw minerals, and then it has two substrates |
| Setting.CatalyzedRecipes | src/setting.ts:258-268 | each catalyzed acid/alkalide is made from the matching tier-2 acid/alkalide and the catalyst X, in that order |
| Setting.Tier2Recipes | src/setting.ts:269-279 | each tier-2 acid is the element's hydride plus OH, each alkalide the element's oxide plus OH |
| Setting.Tier1Recipes | src/setting.ts:280-290 | each hydride pairs its element with H, each oxide its element with O |
| Setting.ExpandHeightIsRank | src/setting.ts:257-296 | recursively expanding a product through the table gives a tree whose depth is exactly the product's tier |
| Setting.LongestExpansion | src/setting.ts:257-296 | no expansion is deeper than five reactions, and XGHO2 takes all five |
| Setting.ExpandLeavesAreRawMinerals | src/setting.ts:257-296 | expanding any lab resource ends only in raw minerals (H, O, U, L, K, Z, X), none of which has an entry |
| Setting.DescendantsRankBelow | src/setting.ts:257-296 | every resource below a product in its reaction tree has a strictly lower tier |
| Setting.NoProductIsItsOwnAncestor | src/setting.ts:257-296 | no product occurs in its own expansion |
| Setting.ChainsAreShort | src/setting.ts:257-296 | any substrate chain through the table has at most as many steps as its start's tier, so at most five |
| Setting.LongestChainExample | src/setting.ts:259-295 | XGHO2 → GHO2 → GO → G → ZK → Z is such a chain of five reactions |
| Setting.LabTargetsAreProducts | src/setting.ts:311-334 | every plan target has an entry in the reaction table |
| Setting.BasePlanInOrder | src/setting.ts:312-317 | for OH, ZK, UL and G, each substrate that is itself a product appears earlier in the plan |
| Setting.KeaniumLineInOrder | src/setting.ts:318-321 | the same for the KO, KHO2, XKHO2 line |
| Setting.LemergiumLineInOrder | src/setting.ts:322-325 | the same for the LO, LHO2, XLHO2 line |
| Setting.ZynthiumLineInOrder | src/setting.ts:326-329 | the same for the ZO, ZHO2, XZHO2 line |
| Setting.GhodiumLineInOrder | src/setting.ts:330-333 | the same for the GO, GHO2, XGHO2 line, whose G is planned at index 3 |
| Setting.LabTargetsInDependencyOrder | src/setting.ts:311-334 | for every plan entry, each substrate that is itself a product appears at an earlier index of the plan |
| Setting.FactoryLocksAreRawMineralsAndGhodium | src/setting.ts:340-349 | exactly H, O, U, L, K, Z, X and G have a factory lock, each of 40000 |
| Setting.LabStateNamesDistinct | src/setting.ts:301-306 | the four lab states are stored under pairwise distinct names |
| Utils.OppositeDirection | src/utils.ts:8-10 | the result is a direction 1..8, differs from the input, and is four steps (half a turn) away modulo 8 |
| Utils.OppositeIsInvolution | src/utils.ts:8-10 | turning around twice gives the original direction |
| Utils.OppositeIsUnique | src/utils.ts:8-10 | the opposite is the only direction four steps away |
| Utils.Repeat | src/utils.ts:21 | `Array(n).fill(part)` has length n and holds n copies of the part and nothing else |
| Utils.CalcBodyPart | src/utils.ts:18-24 | the body's length is the sum of the counts, and each part type occurs exactly its configured count (zero for absent types) |
| Utils.CalcBodyPartInKeyOrder | src/utils.ts:18-24 | with the object's unique keys, parts come in key order, so each type forms one contiguous run |
| Utils.NatText | src/utils.ts:265-282 | the decimal text of an index is non-empty and all digits |
| Utils.NatTextInjective | src/utils.ts:265-282 | different indices print differently |
| Utils.IndexTextInjective | src/utils.ts:265-282 | an omitted index (printed "undefined") and every number print differently |
| Utils.GetCreepNameShape | src/utils.ts:264-283 | transfer and centerTransfer names are "room role" with no index; every other role, generated or not, is "room role" followed by the index |
| Utils.CreepNamesDistinctByIndex | src/utils.ts:264-283 | two creeps of the same indexed role in the same room with the same name have the same index |
| Utils.NextSayIndex | src/utils.ts:214-219 | from an index inside the word list the next index is the following word, wrapping to 0, and stays inside the list; from an index past the end it restarts at 0 |
| Utils.SayIndexCycles | src/utils.ts:214-219 | starting from an empty memory, call k speaks word k mod n |
| Utils.Memory.GlobalSay | src/utils.ts:214-219 | a missing or zero index starts at word 0; the current word is spoken; the index advances by one and wraps to 0 after the last word, staying in range |
| Utils.LiveFlagMemory | src/utils.ts:225-235 | the kept flag memory has exactly the old keys that name live flags, with their entries unchanged |
| Utils.Memory.ClearFlag | src/utils.ts:225-235 | afterwards the flag memory is the old one restricted to live flags; the removed names are exactly the stale ones, each once; the report is the header followed by them, space separated |
| Utils.Memory.WhiteListFilter | src/utils.ts:243-252 | no white list or an unlisted owner: attackable and nothing changes; a listed owner: not attackable and only that owner's counter goes up, by exactly one |
| RolesAdvanced.Room.HandleTask | src/roles.advanced.ts:62 | the reported amount is appended to the room's progress reports |
| RolesAdvanced.UsedCapacityPositive | src/roles.advanced.ts:65 | a store's used capacity is positive exactly when some resource has a positive amount |
| RolesAdvanced.Creep.Carried | src/roles.advanced.ts:57 | the amount of a resource the creep carries, zero when absent |
| RolesAdvanced.Creep.Withdraw | src/roles.advanced.ts:48 | the host's withdraw is issued and recorded; a failure changes nothing; success only increases the named resource |
| RolesAdvanced.Creep.Transfer | src/roles.advanced.ts:60 | the host's transfer is issued and recorded; a failure changes nothing; success only decreases the named resource |
| RolesAdvanced.Creep.MoveTo | src/roles.advanced.ts:22 | the host's moveTo is issued and recorded |
| RolesAdvanced.EnergyNeeders | src/roles.advanced.ts:17-19 | exactly the spawns, extensions and towers whose energy is below capacity pass the filter |
| RolesAdvanced.FindClosestByRange | src/roles.advanced.ts:17 | no result exactly when there is no candidate; otherwise one of the candidates |
| RolesAdvanced.TransferTarget | src/roles.advanced.ts:15-23 | with no spawn, extension or tower needing energy nothing happens; otherwise energy is transferred into one of them, with a move towards it exactly when it is out of range; a failed transfer leaves the store unchanged, a successful one changes only the energy, and never upwards |
| RolesAdvanced.TransferSwitch | src/roles.advanced.ts:24 | the transfer creep works exactly while it carries a positive amount of energy |
| RolesAdvanced.CenterTransferPrepare | src/roles.advanced.ts:40 | the creep is sent to its post (x, y) |
| RolesAdvanced.CenterTransferIsReady | src/roles.advanced.ts:41 | the center transfer creep is ready exactly when it stands at (x, y) |
| RolesAdvanced.CenterTransferSwitch | src/roles.advanced.ts:65 | the center transfer creep works exactly while some resource in its store has a positive amount |
| RolesAdvanced.TransferSwitchImpliesCenterSwitch | src/roles.advanced.ts:24-65 | carrying energy implies carrying something, and for an energy-only store the two switches agree |
| RolesAdvanced.CenterTransferSource | src/roles.advanced.ts:43-50 | with no task nothing happens; otherwise the task's resource is withdrawn from the task's source; the task and the progress reports never change; a failed withdraw leaves the store unchanged, a successful one changes only the task's resource, and never downwards |
| RolesAdvanced.CenterTransferTarget | src/roles.advanced.ts:52-64 | with no task nothing happens; otherwise the task's resource is transferred to the task's target; exactly on success, the amount carried before the transfer is reported to `handleTask`; any other result leaves the store and the progress unchanged; a successful transfer changes only the task's resource in the store, and never upwards |

## Left out

- `bodyConfigs` in `src/setting.ts` is left out: it is a raw lookup table with no logic.
- The console and help text is left out: `colorful`, `createLink`, `createHelp`, `createConst`, `resourcesHelp`, `projectTitle` and `globalHelp` only build display strings.
- `stateScanner` is left out: it reads host statistics and computes floating-point percentages.
- `doing`, `log` and `generatePixel` are left out: they iterate over host objects, time the CPU and write to the console or notifications.
- Every `creep.say` call is left out, including those in `globalSay` and in the `centerTransfer` hooks. They are console output. The word a creep says in `globalSay` is returned instead.
- `transfer.source` is left out: it calls `creep.getEngryFrom`, which is not part of this model.
- The `spawn` and `bodyType` fields of the role configs are left out. They are constants that other code reads.
- `getTask` and `handleTask` are not part of this model, and neither is the lab state machine that uses `LAB_STATE` and `labTarget`. `getTask` is read as the room's `task` field. `RolesAdvanced.Room.HandleTask` only records the reported amount. How that amount becomes task progress, and when a task is retired, is not modelled.
- RolesAdvanced.CenterTransferTarget: reports the amount carried before the transfer, as the code does (src/roles.advanced.ts:57, 62). The reported amount is the whole load carried before the call, which can exceed what the target accepted. The model follows the code and proves nothing about the amount actually moved.
- `Game.getObjectById` is left out. A missing source or target shows up only as a non-OK status from the host primitive, and any status is allowed.
- RolesAdvanced.FindClosestByRange: does not model the range metric: which candidate is nearest is left to the host.
- RolesAdvanced.Creep.Withdraw: together with RolesAdvanced.Creep.Transfer, does not model store capacity or the amounts the host actually moves. Both amounts are chosen freely within the stated monotonicity.
- Utils.GetCreepNameShape: assumes a non-negative integer index below 10^21, or none at all. JavaScript prints larger numbers in exponent form (`1e+21`). Negative or fractional indices print differently in JavaScript and are not modelled. A role string that names an inherited object property is also not modelled: JavaScript's `in` operator would find such a key on the generator object.
- Utils.CalcBodyPart: takes the body configuration as a list of (part, count) pairs in the object's key order. Non-integer counts are not modelled.
- Utils.Memory.GlobalSay: keeps JavaScript's truthiness test: a missing index and 0 both restart at word 0. A non-numeric index is not modelled.
- Utils.Memory.ClearFlag: takes the set of live flags as a parameter in place of `Game.flags`: the names `n` whose `Game.flags[n]` is truthy. It visits the stale flags in an unspecified order rather than the object's key order, so the report's order of names is not pinned down.
- Utils.Memory.WhiteListFilter: does not model a username that names an inherited object property (`constructor`, `toString`, `hasOwnProperty`, ...). JavaScript's `in` finds such a name on the white-list object, so the source returns false and writes a string counter, while the model treats the owner as unlisted. The method also takes the owner's name rather than the creep, and does not model JavaScript's `+=` on a non-numeric counter.
- `creepDefaultMemory` is modelled as the constant `Setting.CreepDefaultMemory` and has no contract of its own.
- Concurrency between creeps is not modelled. Each hook runs to completion within a tick.
