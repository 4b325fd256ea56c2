# Pyrite item and stat rules in Dafny

This project models the item and stat rules of Pyrite, a Unity action RPG, and proves properties about them. It covers:

- how an item's name, rarity and level are rolled (`BaseItemInfo`, `ItemStats`);
- how an armour piece rolls its baseline armour, scales it, draws affixes and folds them into its bonuses and elemental resistances, and how it describes itself as a tooltip (`ArmourStats`);
- the armour arithmetic record (`BaselineArmourStats`) and its elemental resistance rows;
- how the player's stats move when a weapon or a piece of armour is equipped or unequipped (`PlayerRpgController`);
- the five equipment slots (`EquipmentManager`);
- the template list the game draws from (`ItemDatabase`);
- the loot container that rolls a count and a rarity, draws templates and drops them once (`LootContainer`).

Objects whose fields the game updates in place are Dafny classes, and their methods are proved against specification functions:

- `ArmourStats`
- `BaseItemInfo` and `ItemStats`
- `PlayerRpgController`
- `EquipmentManager`
- `ItemDatabase`
- `LootContainer`

Value types are datatypes: the stat structs, affixes, templates and resistance rows.

The modelling conventions are:

- **Random numbers.** Every `Random.Range(min, max)` call is an explicit parameter. `RpgTypes.RangeRoll` constrains it to lie in [min, max), or to equal `min` when that range is empty.
- **Floats.** `float` is modelled as `real`.
- **Casts and rounding.** An `(int)` cast of a float truncates toward zero (`ArmourStats.Trunc`). `Mathf.RoundToInt` rounds half to even (`ItemStats.RoundToInt`).
- **Exceptions.** A thrown exception is an `Outcome` (`Completed` or `Threw(e)`) or a `Result`, so the error paths are part of each contract.
- **Null references.** A null list is `None`, and a null armour reference is `null`.

Modules follow the source files:

| module | file | models |
|---|---|---|
| `RpgTypes` | `Types.dfy` | the shared enums and structs of `RPGManager.cs` and `ItemTemplate.cs` |
| `BaselineArmour` | `BaselineArmour.dfy` | `BaselineArmourStats.cs` |
| `PlayerRpg` | `PlayerRpg.dfy` | `PlayerRpgController.cs` |
| `ItemInfo` | `BaseItemInfo.dfy` | `BaseItemInfo.cs` |
| `ItemStats` | `ItemStats.dfy` | `ItemStats.cs` |
| `ArmourStats` | `ArmourStats.dfy` | `ArmourStats.cs` |
| `Equipment` | `Equipment.dfy` | `EquipmentManager.cs` |
| `Database` | `Database.dfy` | `ItemDatabase.cs` |
| `Loot` | `Loot.dfy` | `LootContainer.cs` |

## Model

| member | source | states |
|---|---|---|
| RpgTypes.RarityOrdinal | Assets/Scripts/RPGManager.cs:88-95 | the `(int)` value of a rarity is one of the five positions 0..4 |
| RpgTypes.RarityFromOrdinal | Assets/Scripts/RPGSystem/Equipment/BaseItemInfo.cs:61 | casting a roll in [0, 5) to `ItemRarity` gives the rarity whose ordinal is that roll |
| RpgTypes.RarityOrdinalRoundTrip | Assets/Scripts/RPGManager.cs:88-95 | casting a rarity to int and back gives the same rarity |
| RpgTypes.FindRaritySettings | Assets/Scripts/RPGSystem/Equipment/ArmourStats.cs:86-87 | `List.Find` on the rarity settings returns the first entry of that rarity, or the default struct when none matches |
| BaselineArmour.EmptyIsNeutral | Assets/Scripts/RPGSystem/Backend/BaselineArmourStats.cs:25-47 | the default object is neutral for `+` on both sides and for `-`: each gives a deep copy of the other operand, and `a - a` has the default totals |
| BaselineArmour.MinusUndoesPlus | Assets/Scripts/RPGSystem/Backend/BaselineArmourStats.cs:25-47 | `(a + b) - b` and `(a - b) + b` have the same armour and stat totals as `a` |
| BaselineArmour.PlusCommutesAndAssociates | Assets/Scripts/RPGSystem/Backend/BaselineArmourStats.cs:25-35 | `+` is commutative and associative, so the order of equips does not matter to the totals |
| BaselineArmour.OperatorsDropAffixes | Assets/Scripts/RPGSystem/Backend/BaselineArmourStats.cs:25-62 | `+`, `-` and `DeepCopy` never carry the affix list, and `DeepCopy` keeps every total |
| BaselineArmour.AddResistancesAsWrittenLosesType | Assets/Scripts/RPGSystem/Backend/BaselineArmourStats.cs:74-83 | as written, adding two Ice rows succeeds with the summed percentage but a Fire type |
| BaselineArmour.AddResistances | Assets/Scripts/RPGSystem/Backend/BaselineArmourStats.cs:74-83 | resistance `+` succeeds exactly when the two types match; it then keeps that type and sums the percentages; a mismatch throws InvalidOperationException |
| BaselineArmour.AddResistancesAgreeExceptType | Assets/Scripts/RPGSystem/Backend/BaselineArmourStats.cs:74-83 | the written and the corrected `+` throw on the same inputs and agree on every result except its type |
| BaselineArmour.ResistanceEqualsIsEquivalence | Assets/Scripts/RPGSystem/Backend/BaselineArmourStats.cs:85-93 | `Equals` compares only the damage type: it is an equivalence, and rows that differ in percentage are equal under it |
| BaselineArmour.FirstIndexOf | Assets/Scripts/RPGSystem/Equipment/ArmourStats.cs:282-284 | the resistance loop stops at the first row of the type; there is no such row exactly when no row has the type |
| BaselineArmour.FindResistance | Assets/Scripts/Player/PlayerRpgController.cs:290 | `List.Find` by type returns a row of the table with that type, or the default row (Fire, 0) when there is none |
| BaselineArmour.ZeroResistances | Assets/Scripts/RPGSystem/Equipment/ArmourStats.cs:104-113 | one row per listed element, in order, each at 0% |
| PlayerRpg.StartingStateTable | Assets/Scripts/Player/PlayerRpgController.cs:52-86 | after Awake the player has 0 experience, 100 of 100 health and a Fire, Ice, Lightning, Poison table at 0% |
| PlayerRpg.WeaponAffixTotals | Assets/Scripts/Player/PlayerRpgController.cs:107-138 | the weapon affix loop moves strength, intelligence, dexterity, max health, physical damage and crit chance by the signed affix totals and changes nothing else |
| PlayerRpg.RemoveFirstMultiset | Assets/Scripts/Player/PlayerRpgController.cs:196 | `List.Remove` removes one occurrence of the element when present and otherwise leaves the list as it was |
| PlayerRpg.WeaponIncreaseOverwrites | Assets/Scripts/Player/PlayerRpgController.cs:97-140 | equipping a weapon overwrites damage, speed, range and the crit values, which then do not depend on the previous state; attributes move by the affix totals |
| PlayerRpg.WeaponRoundTripMoved | Assets/Scripts/Player/PlayerRpgController.cs:97-235 | after equipping and unequipping a weapon, the attributes and max health are back and physical damage and crit chance are 0 |
| PlayerRpg.WeaponRoundTripKept | Assets/Scripts/Player/PlayerRpgController.cs:97-235 | after equipping and unequipping a weapon, the elemental damage list is back as a multiset, attack speed, range and crit multiplier are 0, and level, experience, health, armour and resistances are untouched |
| PlayerRpg.WeaponEquipUnequip | Assets/Scripts/Player/PlayerRpgController.cs:97-235 | equipping and then unequipping a weapon restores attributes, max health and elemental damage (as a multiset); the overwritten weapon fields end at 0 |
| PlayerRpg.WeaponNullAffixes | Assets/Scripts/Player/PlayerRpgController.cs:106-202 | a null affix list is skipped on equip but throws NullReferenceException on unequip |
| PlayerRpg.ArmourEquipUnequip | Assets/Scripts/Player/PlayerRpgController.cs:142-286 | the armour handlers change only the armour totals, ignore the piece's affixes, and unequip restores the totals that equip added |
| PlayerRpg.ArmourAffixesKeepResistances | Assets/Scripts/Player/PlayerRpgController.cs:150-189 | the armour affix loop never changes the resistance table or elemental damage; physical armour moves by the signed AddedArmour total |
| PlayerRpg.IncreasedResistancesOnStartingTable | Assets/Scripts/Player/PlayerRpgController.cs:288-292 | on the starting table, the intended increase of a type leaves that type's row at the increase and changes the table |
| PlayerRpg.PlayerRpgController.constructor | Assets/Scripts/Player/PlayerRpgController.cs:52-86 | Awake leaves the starting state |
| PlayerRpg.PlayerRpgController.ApplyWeaponAffix | Assets/Scripts/Player/PlayerRpgController.cs:109-137 | one case of the weapon affix switch, as a state change |
| PlayerRpg.PlayerRpgController.ApplyWeaponAffixList | Assets/Scripts/Player/PlayerRpgController.cs:107-138 | the weapon affix loop leaves the state the affix fold specifies |
| PlayerRpg.PlayerRpgController.IncreasePlayerStatsWeapon | Assets/Scripts/Player/PlayerRpgController.cs:97-140 | equipping a weapon leaves the state `IncreaseWithWeapon` specifies |
| PlayerRpg.PlayerRpgController.DecreasePlayerStatsWeapon | Assets/Scripts/Player/PlayerRpgController.cs:193-235 | unequipping a weapon leaves the state and outcome `DecreaseWithWeapon` specifies, a throw on a null affix list included |
| PlayerRpg.PlayerRpgController.IncreasePlayerStatsArmour | Assets/Scripts/Player/PlayerRpgController.cs:142-191 | equipping armour adds a deep copy of its stats to the totals |
| PlayerRpg.PlayerRpgController.DecreasePlayerStatsArmour | Assets/Scripts/Player/PlayerRpgController.cs:237-286 | unequipping armour subtracts a deep copy of its stats from the totals |
| PlayerRpg.PlayerRpgController.ApplyArmourAffixes | Assets/Scripts/Player/PlayerRpgController.cs:150-189 | the armour affix loop leaves the state the armour affix fold specifies |
| PlayerRpg.PlayerRpgController.IncreaseElementalResistance | Assets/Scripts/Player/PlayerRpgController.cs:288-292 | as written, the player's resistance table is unchanged |
| PlayerRpg.PlayerRpgController.IncreaseElementalResistanceCorrected | Assets/Scripts/Player/PlayerRpgController.cs:288-292 | the increase is written to the first row of the type, and nothing else changes |
| ItemInfo.LevelRollBounds | Assets/Scripts/RPGSystem/Equipment/BaseItemInfo.cs:63-64 | the item level lies in [player level, player level + rarity); Common and Uncommon items are exactly at the player level, and only Unique reaches level + 3 |
| ItemInfo.BaseItemInfo.GenerateBaseItemInfo | Assets/Scripts/RPGSystem/Equipment/BaseItemInfo.cs:55-65 | name and type come from the template, the rarity is the roll in [0, 5), and the level is a level roll the rarity allows |
| ItemInfo.EveryRarityReachable | Assets/Scripts/RPGSystem/Equipment/BaseItemInfo.cs:60-64 | every rarity is produced by some rarity roll, together with a valid level roll |
| ItemStats.HighestQualifying | Assets/Scripts/RPGSystem/Equipment/ItemStats.cs:69-79 | the highest settings index whose drop-chance threshold the roll meets, or none exactly when no threshold is met |
| ItemStats.CascadePicksHighest | Assets/Scripts/RPGSystem/Equipment/ItemStats.cs:69-79 | the overwriting `if` cascade yields the rarity of the highest qualifying threshold, or keeps the previous rarity |
| ItemStats.CascadeWithOrderedChances | Assets/Scripts/RPGSystem/Equipment/ItemStats.cs:69-79 | with non-decreasing drop chances and Common met, the rarity is the last one met, and every lower tier is met too |
| ItemStats.RoundToInt | Assets/Scripts/RPGSystem/Equipment/ItemStats.cs:107-112 | `Mathf.RoundToInt` is within 0.5 of its input, and exact halves round to even |
| ItemStats.RoundToIntMonotone | Assets/Scripts/RPGSystem/Equipment/ItemStats.cs:107-112 | rounding is monotone |
| ItemStats.RoundToIntOfInteger | Assets/Scripts/RPGSystem/Equipment/ItemStats.cs:107-112 | rounding leaves integers unchanged |
| ItemStats.AttributeRequirement | Assets/Scripts/RPGSystem/Equipment/ItemStats.cs:107-112 | a requirement is never below the template base for non-negative level and multiplier, and equals it at level 0 or multiplier 0 |
| ItemStats.Requirements | Assets/Scripts/RPGSystem/Equipment/ItemStats.cs:100-113 | the level requirement is the item level, and for a non-negative level and multiplier the attribute requirements are at least the template's |
| ItemStats.AttributeRequirementGrowsWithLevel | Assets/Scripts/RPGSystem/Equipment/ItemStats.cs:107-112 | a higher item level never lowers an attribute requirement |
| ItemStats.RequirementsGrowWithLevel | Assets/Scripts/RPGSystem/Equipment/ItemStats.cs:100-113 | a higher item level never lowers the strength, dexterity or intelligence requirement |
| ItemStats.MeetsRequirementsMonotone | Assets/Scripts/RPGSystem/Equipment/ItemStats.cs:122-130 | a player who meets the requirements still meets them with higher level and attributes |
| ItemStats.RequirementsIgnoreOtherAttributes | Assets/Scripts/RPGSystem/Equipment/ItemStats.cs:122-130 | vitality, magic and luck play no part in meeting the requirements |
| ItemStats.ItemStats.GenerateItemNameTypeAndLevel | Assets/Scripts/RPGSystem/Equipment/ItemStats.cs:63-83 | name and type come from the template and the rarity is the cascade over the five settings; fewer than five settings throw ArgumentOutOfRangeException after the steps that fit |
| ItemStats.ItemStats.GenerateItemNameTypeAndLevelWithRarity | Assets/Scripts/RPGSystem/Equipment/ItemStats.cs:85-93 | the given rarity is kept and the level is at least the player's (exactly it for Common) |
| ItemStats.ItemStats.GenerateItemRequirements | Assets/Scripts/RPGSystem/Equipment/ItemStats.cs:100-114 | the requirements are the rounded, level- and rarity-scaled template values, and the level requirement is the item level |
| ItemStats.ItemStats.CheckItemRequirements | Assets/Scripts/RPGSystem/Equipment/ItemStats.cs:122-130 | the check fails exactly when the player's level, strength, dexterity or intelligence is below its requirement |
| ArmourStats.Clamp | Assets/Scripts/RPGSystem/Equipment/ArmourStats.cs:286 | `Mathf.Clamp` lands in [lo, hi] and leaves values already inside it unchanged |
| ArmourStats.Trunc | Assets/Scripts/RPGSystem/Equipment/ArmourStats.cs:161-171 | the `(int)` cast truncates toward zero |
| ArmourStats.MappedSlotFacts | Assets/Scripts/RPGSystem/Equipment/ArmourStats.cs:59-73 | head, chest, legs and boots map to four distinct non-hand slots; gauntlets and rings keep the previous slot |
| ArmourStats.CandidatesFit | Assets/Scripts/RPGSystem/Equipment/ArmourStats.cs:177-226 | one candidate per handled template affix, each of a type the template offers, with a value in the tier range of its stat |
| ArmourStats.RemoveAtMultiset | Assets/Scripts/RPGSystem/Equipment/ArmourStats.cs:232 | `RemoveAt(k)` removes exactly the k-th element |
| ArmourStats.CollectCandidates | Assets/Scripts/RPGSystem/Equipment/ArmourStats.cs:179-226 | the candidate loop yields exactly `Candidates`: each template affix of a handled type, in order, with its rolled value |
| ArmourStats.PicksLength | Assets/Scripts/RPGSystem/Equipment/ArmourStats.cs:228-233 | the picking loop takes min(count, candidates) affixes, none for a count below 1 |
| ArmourStats.PicksFromCandidates | Assets/Scripts/RPGSystem/Equipment/ArmourStats.cs:228-233 | the picked affixes form a sub-multiset of the candidates: none is taken more often than the list holds it |
| ArmourStats.GeneratedAffixesFit | Assets/Scripts/RPGSystem/Equipment/ArmourStats.cs:173-233 | every generated affix has a handled type and a value in its tier range, and there are min(count, handled affixes) of them |
| ArmourStats.AddToFirstFacts | Assets/Scripts/RPGSystem/Equipment/ArmourStats.cs:280-290 | AddResistance changes only the first row of the type, to the clamped sum; it keeps row order and keeps percentages in [0, 100] |
| ArmourStats.SetFirstFacts | Assets/Scripts/RPGSystem/Equipment/ArmourStats.cs:292-302 | SetResistance changes only the first row of the type, to the clamped amount; it keeps row order and keeps percentages in [0, 100] |
| ArmourStats.ApplyAffixTotals | Assets/Scripts/RPGSystem/Equipment/ArmourStats.cs:237-278 | applying affixes adds the affix totals to strength, dexterity, intelligence and vitality; it keeps magic, luck and the resistance rows, and keeps percentages in [0, 100] |
| ArmourStats.AffixEffectStep | Assets/Scripts/RPGSystem/Equipment/ArmourStats.cs:243-276 | one affix raises at most one of strength, dexterity, intelligence and vitality, by its value; magic and luck stay; resistance rows keep their length, types and bounds; only AddedArmour changes the armour |
| ArmourStats.AffixLineStripsPrefix | Assets/Scripts/RPGSystem/Equipment/ArmourStats.cs:344-371 | the tooltip label of an affix is its enum name with exactly the "Added" or "Increased" prefix removed |
| ArmourStats.BonusLinesExact | Assets/Scripts/RPGSystem/Equipment/ArmourStats.cs:320-331 | there is a bonus line exactly for each positive core stat, carrying that stat's value |
| ArmourStats.ResistanceLinesExact | Assets/Scripts/RPGSystem/Equipment/ArmourStats.cs:334-341 | there is a resistance line exactly for each row with a positive percentage |
| ArmourStats.AffixLinesCount | Assets/Scripts/RPGSystem/Equipment/ArmourStats.cs:344-371 | one "Adds" or "Increased" line per affix |
| ArmourStats.AffixPartFacts | Assets/Scripts/RPGSystem/Equipment/ArmourStats.cs:344-371 | the affix part holds only the separator and Adds/Increased lines; the separator is there exactly when the list is non-null and non-empty; it has one line per affix plus the separator |
| ArmourStats.DescriptionFacts | Assets/Scripts/RPGSystem/Equipment/ArmourStats.cs:308-374 | the tooltip starts with the two armour lines; bonus and resistance lines appear exactly as above; the affix separator appears exactly when there are affixes; the line count is the sum of the parts |
| ArmourStats.DescriptionShowsPositiveBonuses | Assets/Scripts/RPGSystem/Equipment/ArmourStats.cs:320-331 | each core stat's line is shown if and only if its bonus is positive |
| ArmourStats.ArmourStats.InitializeElementalResistances | Assets/Scripts/RPGSystem/Equipment/ArmourStats.cs:100-114 | the table becomes one 0% row per element, in enum order; nothing else changes |
| ArmourStats.ArmourStats.RollBaselineByArmourType | Assets/Scripts/RPGSystem/Equipment/ArmourStats.cs:116-158 | the baseline falls in the per-type ranges (head 5-8/3-6, chest 12-18/6-10, legs 8-14/4-8, boots 4-8/2-5); other types keep their values |
| ArmourStats.ArmourStats.ScaleArmourValues | Assets/Scripts/RPGSystem/Equipment/ArmourStats.cs:161-171 | both armour values become their truncated level- and rarity-scaled values; nothing else changes |
| ArmourStats.ArmourStats.GenerateAffixes | Assets/Scripts/RPGSystem/Equipment/ArmourStats.cs:173-233 | the affix list gains exactly the picks from the candidate list; the armour values are unchanged |
| ArmourStats.ArmourStats.AddResistance | Assets/Scripts/RPGSystem/Equipment/ArmourStats.cs:280-290 | the table becomes `AddToFirst` of the old table; other fields are unchanged |
| ArmourStats.ArmourStats.SetResistance | Assets/Scripts/RPGSystem/Equipment/ArmourStats.cs:292-302 | the table becomes `SetFirst` of the old table; other fields are unchanged |
| ArmourStats.ArmourStats.ApplyAffix | Assets/Scripts/RPGSystem/Equipment/ArmourStats.cs:243-276 | one case of the affix switch; AddedArmour adds the truncated `tier * value * factor` to physical armour and 0.6 of it to magical armour |
| ArmourStats.ArmourStats.ApplyAffixes | Assets/Scripts/RPGSystem/Equipment/ArmourStats.cs:237-278 | the values become the affix fold over the list; a null list changes nothing |
| ArmourStats.ArmourStats.GenerateBaseArmourStats | Assets/Scripts/RPGSystem/Equipment/ArmourStats.cs:48-98 | a non-armour template throws NullReferenceException before any modelled field changes; otherwise the base info, slot, resistances, scaled baseline, rolled affixes and applied affixes are exactly as specified |
| ArmourStats.ArmourStats.GenerateArmourStatsDescription | Assets/Scripts/RPGSystem/Equipment/ArmourStats.cs:308-374 | the tooltip lines are the `Description` of the piece |
| ArmourStats.ArmourStats.CoreBonusDescription | Assets/Scripts/RPGSystem/Equipment/ArmourStats.cs:320-331 | the bonus part is one line per positive stat, in source order |
| ArmourStats.ArmourStats.ResistanceDescription | Assets/Scripts/RPGSystem/Equipment/ArmourStats.cs:334-341 | the resistance part skips rows at or below 0% |
| ArmourStats.ArmourStats.AffixDescription | Assets/Scripts/RPGSystem/Equipment/ArmourStats.cs:344-371 | a separator and one line per affix, or nothing for a null or empty list |
| ArmourStats.ScaledArmour | Assets/Scripts/RPGSystem/Equipment/ArmourStats.cs:161-171 | scaling keeps non-negative values non-negative, is the identity at level 0 with multiplier 1, and gives 0 for multiplier 0 |
| ArmourStats.GeneratedPieceFacts | Assets/Scripts/RPGSystem/Equipment/ArmourStats.cs:48-98 | a generated piece has one in-range row per element in enum order, keeps magic and luck, and carries only handled, in-range affixes, fewer than the rarity's maximum |
| Equipment.EquipWeaponFacts | Assets/Scripts/RPGSystem/Equipment/EquipmentManager.cs:34-38 | EquipWeapon changes only the weapon slot, and only when it is occupied |
| Equipment.EquipArmourFacts | Assets/Scripts/RPGSystem/Equipment/EquipmentManager.cs:40-63 | unslotted armour types throw ArgumentOutOfRangeException and change nothing; otherwise only the type's slot can change; boots are guarded by the leg slot |
| Equipment.EquipArmourCorrectedFacts | Assets/Scripts/RPGSystem/Equipment/EquipmentManager.cs:40-63 | with every type guarded by its own slot, a piece is placed exactly when that slot is occupied and no other slot changes |
| Equipment.BootsGuardedByLegSlot | Assets/Scripts/RPGSystem/Equipment/EquipmentManager.cs:56-58 | the two versions differ only on boots, and the two inputs shown differ in outcome |
| Equipment.EmptySlotsStayEmpty | Assets/Scripts/RPGSystem/Equipment/EquipmentManager.cs:34-63 | an all-empty manager stays empty whatever is equipped |
| Equipment.EquipmentManager.EquipItem | Assets/Scripts/RPGSystem/Equipment/EquipmentManager.cs:20-31 | dispatches on the declared item type: weapons are cast, and a failed armour cast throws NullReferenceException; accessories and potions change nothing |
| Equipment.EquipmentManager.EquipWeapon | Assets/Scripts/RPGSystem/Equipment/EquipmentManager.cs:34-38 | the slots become `EquipWeaponSlots` of the old slots |
| Equipment.EquipmentManager.EquipArmour | Assets/Scripts/RPGSystem/Equipment/EquipmentManager.cs:40-63 | a null piece throws NullReferenceException; otherwise the slots and outcome are those of `EquipArmourSlots` |
| Equipment.EquipmentManager.EquipArmourCorrected | Assets/Scripts/RPGSystem/Equipment/EquipmentManager.cs:40-63 | as EquipArmour, with the boot case guarded by the boot slot |
| Database.TemplatesOfTypeFacts | Assets/Scripts/RPGSystem/ItemDatabase.cs:26-44 | the filter has one entry per template of the type; non-null entries are templates of that type from the list; every matching template appears |
| Database.TemplatesOfTypeAppend | Assets/Scripts/RPGSystem/ItemDatabase.cs:26-44 | the filter distributes over concatenation, so list order is kept |
| Database.FindByName | Assets/Scripts/RPGSystem/ItemDatabase.cs:51-54 | the result is the first template with exactly that name, and is null exactly when there is none |
| Database.ItemDatabase.GetAllWeaponTemplates | Assets/Scripts/RPGSystem/ItemDatabase.cs:26-34 | the result is the Weapon filter of the list, one entry per Weapon-typed template |
| Database.ItemDatabase.GetAllArmourTemplates | Assets/Scripts/RPGSystem/ItemDatabase.cs:36-44 | the result is the Armour filter of the list, one entry per Armour-typed template |
| Database.ItemDatabase.CollectOfType | Assets/Scripts/RPGSystem/ItemDatabase.cs:29-31 | the `foreach` builds exactly the filter of the list |
| Database.ItemDatabase.GetTemplateByName | Assets/Scripts/RPGSystem/ItemDatabase.cs:51-54 | the result is a template of the list with that name, and is null exactly when no template has it |
| Database.ItemDatabase.GetRandomItemTemplate | Assets/Scripts/RPGSystem/ItemDatabase.cs:60-63 | a non-empty list yields one of its templates, and an empty list throws ArgumentOutOfRangeException |
| Loot.DrawsFacts | Assets/Scripts/World/LootContainer.cs:54-58 | `count` draws, each the template at its roll, so every drawn template is in the database |
| Loot.Pickups | Assets/Scripts/World/LootContainer.cs:72-82 | one pickup per generated template, in order, each with the container's rarity |
| Loot.ItemCountInclusive | Assets/Scripts/World/LootContainer.cs:30 | `Random.Range(min, max + 1)` lies in the inclusive range [min, max] |
| Loot.LootContainer.Start | Assets/Scripts/World/LootContainer.cs:27-37 | count, rarity and loot are rolled in order; a rarity throw ends Start before any loot; `count + 1` templates are drawn |
| Loot.LootContainer.RollNumberOfItemsToDrop | Assets/Scripts/World/LootContainer.cs:30 | the count is the roll, inside [min, max] when min <= max |
| Loot.LootContainer.RandomlyAssignContainerRarity | Assets/Scripts/World/LootContainer.cs:39-52 | the container rarity is the five-step cascade; fewer than five settings throw ArgumentOutOfRangeException after the steps that fit |
| Loot.LootContainer.GenerateLootItemsToDrop | Assets/Scripts/World/LootContainer.cs:54-58 | the loop appends n + 1 draws (none when n < 0); an empty database throws on the first draw |
| Loot.LootContainer.DropLootAroundContainer | Assets/Scripts/World/LootContainer.cs:68-85 | the first call spawns the pickups and marks the container used; later calls spawn nothing |

## Left out

- Floating point: `float` arithmetic is modelled on exact reals. Rounding differences of 32-bit floats (in armour scaling, requirement scaling, resistance sums) are not captured.
- Unity plumbing is not modelled. This covers `MonoBehaviour` singletons (`Instance`), the `Awake`/`Start` lifecycle beyond the state they set, event subscription in `PlayerRpgController.Start`, `Instantiate`, `GetComponent`, `Destroy` and `Debug.Log`.
- Drop positions (`Vector3`, `Random.insideUnitCircle`, spacing) in `DropLootAroundContainer` are not modelled. The spawned pickups are a list of `Pickup` records. The `PickupObject` component is not part of this model.
- Randomness is a parameter. Unity's swap of `Random.Range` bounds when `min > max` is not modelled: `RangeRoll` takes the roll to be `min` whenever the range is empty.
- Singleton lookups are parameters:
  - `RpgManager.Instance` settings are the `raritySettings`, `itemLevelFactor`, `currentItemTier` and `tierStats` parameters;
  - the tier lookup `itemTiers[currentItemTier - 1]` is the `tierStats` parameter;
  - the player's level and attributes are parameters.
- `GetRandomItemTemplateByType` and the template selection that precedes armour generation are not part of this model; the template is a parameter.
- Tooltip text formatting (number formats, colour tags, newlines, the rarity header) is modelled as structured `DescriptionLine` values.
- `ElementalResistance.GetHashCode` is not modelled.
- Enum values outside the declared members cannot be represented. The `default: throw` branches of the affix switches are therefore unreachable in the model, and so is the `ArmourStats.GenerateBaseArmourStats` slot switch for them. The `EquipArmour` default branch is modelled, because gauntlets and rings reach it.
- A null resistance table in `InitializeElementalResistances` and `GenerateArmourStatsDescription` is modelled as the empty sequence.
- ItemInfo.BaseItemInfo.GenerateStats: the source's virtual method has an empty body, and the model keeps it without a contract.
- `rarityDropChance` is not declared in the `ItemRaritySettings` struct shown in `RPGManager.cs`. It is a `real` field of the model's `ItemRaritySettings`.
- `CorePlayerStats` addition is modelled component-wise, since its operator is not part of this model.
- `WeaponStats` and the weapon and armour templates are data records here; their Unity serialisation and prefabs are not modelled.
- ArmourStats.ScaledArmour: only bounds and the identity and zero cases are proved, not the exact truncated float product.
- ArmourStats.ArmourStats.GenerateBaseArmourStats: the armour type field is never assigned by the source method, so the baseline is rolled by whatever type the piece already had. The model keeps that and does not assume it matches `typeOfArmourToGenerate`.
- PlayerRpg.PlayerRpgController.IncreasePlayerStatsArmour and PlayerRpg.PlayerRpgController.DecreasePlayerStatsArmour: the affix loop after the null check is never entered, because the deep copy has no affix list. The loop is modelled on its own, as PlayerRpg.PlayerRpgController.ApplyArmourAffixes.
- Loot.LootContainer.Start: the number of template rolls is a precondition (`countRoll + 1` of them), since the source draws them one by one.
- `ItemBaseStats`, the base class of `ArmourStats`, is not part of this model. A piece's item info is the `info` field of type `BaseItemInfo`, which is assumed to behave as `BaseItemInfo.GenerateBaseItemInfo` does.
- The `GeneratedArmourStats` property of `ArmourStats`, which the player's armour handlers read, is not part of this model. `PlayerRpg.PlayerRpgController.IncreasePlayerStatsArmour` and `PlayerRpg.PlayerRpgController.DecreasePlayerStatsArmour` take a `BaselineArmourStats` value as a parameter, and the model does not tie that value to any `ArmourStats` object.
- The `ArmourType` property that `EquipmentManager.EquipArmour` reads is not declared in `ArmourStats.cs`. The model reads the piece's `armourType` field in its place.
- The tooltip's `AddedElementalDamage` case does not name a member of the affix enum. The model takes it to be `AddedElementalDamageToWeapon`, the only member with that stem, labelled "ElementalDamageToWeapon".
- Awake does not write the player's serialised damage, weapon and armour-total fields. `StartingState` and the constructor give them their defaults: 0, an empty list and the default armour object.
- ArmourStats.ArmourStats.GenerateAffixes: the tier lookup `itemTiers[currentItemTier - 1]` is the `tierStats` parameter. So the ArgumentOutOfRangeException that the lookup throws for a tier of 0, or one past the end of the list, is not modelled. A null `possibleAffixes` list, which would throw NullReferenceException, cannot be represented either: the list is a plain sequence.
- ArmourStats.ArmourStats.GenerateBaseArmourStats: it inherits both of the exceptions that `GenerateAffixes` leaves out.
- Database.ItemDatabase.GetRandomItemTemplate: the comment on `GetRandomItemTemplate` promises null when nothing is found, but the code indexes the list and throws on an empty one. The model follows the code.
- Concurrency and frame timing do not arise in these rules and are not modelled.

## Findings

| source | as written | input that shows it | evidently intended | confidence | as-written member | corrected member |
|---|---|---|---|---|---|---|
| Assets/Scripts/RPGSystem/Equipment/EquipmentManager.cs:56-58 | the Boots case replaces the boot slot only when the LEG slot is occupied | legs empty, boots occupied: new boots are never equipped; legs occupied, boots empty: the empty boot slot is filled | guard the Boots case by the boot slot, as the other three cases guard their own slot | not executed | Equipment.EquipmentManager.EquipArmour | Equipment.EquipmentManager.EquipArmourCorrected |
| Assets/Scripts/Player/PlayerRpgController.cs:288-292 | `List.Find` returns a copy of the resistance struct, and the increase is added to that copy | starting table, Fire, increase 5: Fire stays at 0% | write the increased row back into the player's table | not executed | PlayerRpg.PlayerRpgController.IncreaseElementalResistance | PlayerRpg.PlayerRpgController.IncreaseElementalResistanceCorrected |
| Assets/Scripts/RPGSystem/Backend/BaselineArmourStats.cs:74-83 | the `+` of two resistance rows leaves the damage type unset (its assignment is commented out), so the sum has the default type Fire | (Ice, p) + (Ice, q) gives (Fire, p + q) | the sum keeps the common damage type | not executed | BaselineArmour.AddResistancesAsWrittenLosesType | BaselineArmour.AddResistances |
