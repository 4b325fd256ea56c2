/** ItemStats: an item's name, rarity, level and equip requirements. The
    rarity is chosen by a cascade of drop-chance thresholds in which a later,
    rarer threshold overwrites an earlier one; the level is drawn above the
    player's level; the attribute requirements grow with level and rarity. */
module ItemStats {
  import opened RpgTypes
  import opened PlayerRpg

  datatype EquipmentSlot = MainHand | Head | Body | Gauntlets | Legs | Feet | Ring1 | Ring2

  /** `randomWeight >= 100f - dropChance`, the test each step of the cascade
      makes. */
  predicate MeetsThreshold(roll: int, dropChance: real) {
    roll as real >= 100.0 - dropChance
  }

  /** The rarity after the first k steps of the cascade, starting from
      `previous`: step i overwrites the rarity with rarity i when the roll
      meets the drop chance of settings entry i. */
  function RarityCascade(settings: seq<ItemRaritySettings>, roll: int, previous: ItemRarity, k: nat): ItemRarity
    requires k <= 5 && k <= |settings|
  {
    if k == 0 then previous
    else
      var before := RarityCascade(settings, roll, previous, k - 1);
      if MeetsThreshold(roll, settings[k - 1].rarityDropChance) then RarityFromOrdinal(k - 1) else before
  }

  /** The roll meets the drop chance of settings entry i. */
  predicate Qualifies(settings: seq<ItemRaritySettings>, roll: int, i: nat)
    requires i < |settings|
  {
    MeetsThreshold(roll, settings[i].rarityDropChance)
  }

  /** The highest index below k whose threshold the roll meets, if any: the
      rarity a "highest qualifying wins" rule would pick. */
  function HighestQualifying(settings: seq<ItemRaritySettings>, roll: int, k: nat): (r: Option<nat>)
    requires k <= |settings|
    ensures r.Some? ==> r.value < k && Qualifies(settings, roll, r.value) &&
                        forall j :: r.value < j < k ==> !Qualifies(settings, roll, j)
    ensures r.None? <==> forall j :: 0 <= j < k ==> !Qualifies(settings, roll, j)
  {
    if k == 0 then None
    else if Qualifies(settings, roll, k - 1) then Some(k - 1)
    else HighestQualifying(settings, roll, k - 1)
  }

  /** The overwriting cascade picks the highest-indexed rarity whose
      threshold the roll meets, and keeps the previous rarity when it meets
      none. */
  lemma {:induction false} CascadePicksHighest(settings: seq<ItemRaritySettings>, roll: int, previous: ItemRarity, k: nat)
    requires k <= 5 && k <= |settings|
    ensures RarityCascade(settings, roll, previous, k) ==
              match HighestQualifying(settings, roll, k)
              case None => previous
              case Some(i) => RarityFromOrdinal(i)
  {
    if k > 0 {
      CascadePicksHighest(settings, roll, previous, k - 1);
    }
  }

  /** When the drop chances do not decrease with rarity and the roll meets
      the Common threshold, the cascade's pick is exact: the roll meets every
      threshold up to the picked rarity and none above it. */
  lemma CascadeWithOrderedChances(settings: seq<ItemRaritySettings>, roll: int, previous: ItemRarity)
    requires |settings| >= 5
    requires forall i, j :: 0 <= i < j < 5 ==> settings[i].rarityDropChance <= settings[j].rarityDropChance
    requires Qualifies(settings, roll, 0)
    ensures var n := RarityOrdinal(RarityCascade(settings, roll, previous, 5));
            forall i :: 0 <= i < 5 ==> (Qualifies(settings, roll, i) <==> i <= n)
  {
    CascadePicksHighest(settings, roll, previous, 5);
    var h := HighestQualifying(settings, roll, 5);
    assert h.Some?;
    var top := h.value;
    assert RarityOrdinal(RarityCascade(settings, roll, previous, 5)) == top;
    forall i | 0 <= i < top
      ensures Qualifies(settings, roll, i)
    {
      assert settings[i].rarityDropChance <= settings[top].rarityDropChance;
    }
  }

  /** Mathf.RoundToInt: the nearest integer, ties to the even one. */
  function RoundToInt(x: real): (n: int)
    ensures x - 0.5 <= n as real <= x + 0.5
    ensures (n as real - x == 0.5 || x - n as real == 0.5) ==> n % 2 == 0
  {
    var f := x.Floor;
    var d := x - f as real;
    if d < 0.5 then f
    else if d > 0.5 then f + 1
    else if f % 2 == 0 then f else f + 1
  }

  /** Rounding never reverses the order of two values and leaves integers
      where they are. */
  lemma RoundToIntMonotone(x: real, y: real)
    requires x <= y
    ensures RoundToInt(x) <= RoundToInt(y)
  {
  }

  lemma RoundToIntOfInteger(n: int)
    ensures RoundToInt(n as real) == n
  {
  }

  /** One attribute requirement: the template's base plus half the item
      level scaled by the rarity multiplier, rounded. */
  function AttributeRequirement(base: int, level: int, multiplier: real): (r: int)
    ensures level >= 0 && multiplier >= 0.0 ==> r >= base
    ensures multiplier == 0.0 || level == 0 ==> r == base
  {
    var exact := base as real + level as real * 0.5 * multiplier;
    if level >= 0 && multiplier >= 0.0 then
      RoundToIntMonotone(base as real, exact);
      RoundToIntOfInteger(base);
      RoundToInt(exact)
    else
      RoundToInt(exact)
  }

  /** The requirements GenerateItemRequirements produces for an item of the
      given level and rarity multiplier. */
  function Requirements(template: ItemRequirements, level: int, multiplier: real): (r: ItemRequirements)
    ensures r.playerLevelRequirement == level
    ensures level >= 0 && multiplier >= 0.0 ==>
              r.playerStrengthRequirement >= template.playerStrengthRequirement &&
              r.playerDexterityRequirement >= template.playerDexterityRequirement &&
              r.playerIntelligenceRequirement >= template.playerIntelligenceRequirement
  {
    ItemRequirements(
      AttributeRequirement(template.playerStrengthRequirement, level, multiplier),
      AttributeRequirement(template.playerDexterityRequirement, level, multiplier),
      AttributeRequirement(template.playerIntelligenceRequirement, level, multiplier),
      level)
  }

  lemma ScaleMonotone(a: real, b: real, c: real)
    requires a <= b && c >= 0.0
    ensures a * c <= b * c
  {
  }

  /** A higher item level never lowers one attribute requirement, when the
      multiplier is not negative. */
  lemma AttributeRequirementGrowsWithLevel(base: int, level: int, higher: int, multiplier: real)
    requires level <= higher && multiplier >= 0.0
    ensures AttributeRequirement(base, level, multiplier) <= AttributeRequirement(base, higher, multiplier)
  {
    ScaleMonotone(level as real * 0.5, higher as real * 0.5, multiplier);
    RoundToIntMonotone(base as real + level as real * 0.5 * multiplier,
                       base as real + higher as real * 0.5 * multiplier);
  }

  /** A higher item level never lowers any requirement. */
  lemma RequirementsGrowWithLevel(template: ItemRequirements, level: int, higher: int, multiplier: real)
    requires level <= higher && multiplier >= 0.0
    ensures Requirements(template, level, multiplier).playerStrengthRequirement <=
            Requirements(template, higher, multiplier).playerStrengthRequirement
    ensures Requirements(template, level, multiplier).playerDexterityRequirement <=
            Requirements(template, higher, multiplier).playerDexterityRequirement
    ensures Requirements(template, level, multiplier).playerIntelligenceRequirement <=
            Requirements(template, higher, multiplier).playerIntelligenceRequirement
  {
    AttributeRequirementGrowsWithLevel(template.playerStrengthRequirement, level, higher, multiplier);
    AttributeRequirementGrowsWithLevel(template.playerDexterityRequirement, level, higher, multiplier);
    AttributeRequirementGrowsWithLevel(template.playerIntelligenceRequirement, level, higher, multiplier);
  }

  /** The four-way test of CheckItemRequirements. */
  predicate MeetsRequirements(req: ItemRequirements, playerLevel: int, attributes: PlayerStats) {
    playerLevel >= req.playerLevelRequirement &&
    attributes.strength >= req.playerStrengthRequirement &&
    attributes.dexterity >= req.playerDexterityRequirement &&
    attributes.intelligence >= req.playerIntelligenceRequirement
  }

  /** Raising the player's level or any attribute never turns a met
      requirement into an unmet one, and failing any one of the four tests
      fails the whole check. */
  lemma MeetsRequirementsMonotone(req: ItemRequirements, level: int, attributes: PlayerStats, level2: int, attributes2: PlayerStats)
    requires level <= level2
    requires attributes.strength <= attributes2.strength
    requires attributes.dexterity <= attributes2.dexterity
    requires attributes.intelligence <= attributes2.intelligence
    ensures MeetsRequirements(req, level, attributes) ==> MeetsRequirements(req, level2, attributes2)
    ensures !MeetsRequirements(req, level2, attributes2) ==> !MeetsRequirements(req, level, attributes)
  {
  }

  /** An item's requirements ignore vitality, magic and luck. */
  lemma RequirementsIgnoreOtherAttributes(req: ItemRequirements, level: int, attributes: PlayerStats, vitality: int, magic: int, luck: int)
    ensures MeetsRequirements(req, level, attributes) ==
            MeetsRequirements(req, level, attributes.(vitality := vitality, magic := magic, luck := luck))
  {
  }

  class ItemStats {
    var equipmentName: string
    var equipmentRarity: ItemRarity
    var equipmentLevel: int
    var isEquipped: bool
    var itemType: ItemType
    var equipmentSlot: EquipmentSlot
    var itemRequirements: ItemRequirements

    /** A fresh item with every field at its default. */
    constructor ()
      ensures equipmentName == [] && equipmentRarity == Common && equipmentLevel == 0
      ensures !isEquipped && itemType == Weapon && equipmentSlot == MainHand
      ensures itemRequirements == ItemRequirements(0, 0, 0, 0)
    {
      equipmentName := [];
      equipmentRarity := Common;
      equipmentLevel := 0;
      isEquipped := false;
      itemType := Weapon;
      equipmentSlot := MainHand;
      itemRequirements := ItemRequirements(0, 0, 0, 0);
    }

    /** GenerateItemNameTypeAndLevel(itemTemplate): copies name and type,
        runs the five-step rarity cascade on `randomWeight` (Random.Range(0,
        100)) and takes `levelRoll` as the level. With fewer than five rarity
        settings the indexing throws part-way through the cascade, after the
        steps that did run, and the level is not assigned. */
    method GenerateItemNameTypeAndLevel(itemTemplate: ItemTemplate, raritySettings: seq<ItemRaritySettings>,
                                        playerLevel: int, randomWeight: int, levelRoll: int)
      returns (outcome: Outcome)
      requires RangeRoll(randomWeight, 0, 100)
      requires |raritySettings| >= 5 ==>
                 RangeRoll(levelRoll, playerLevel,
                           playerLevel + RarityOrdinal(RarityCascade(raritySettings, randomWeight, equipmentRarity, 5)))
      modifies this
      ensures equipmentName == itemTemplate.itemName && itemType == itemTemplate.itemType
      ensures |raritySettings| >= 5 ==>
                outcome == Completed &&
                equipmentRarity == RarityCascade(raritySettings, randomWeight, old(equipmentRarity), 5) &&
                equipmentLevel == levelRoll
      ensures |raritySettings| < 5 ==>
                outcome == Threw(ArgumentOutOfRange) &&
                equipmentRarity == RarityCascade(raritySettings, randomWeight, old(equipmentRarity), |raritySettings|) &&
                equipmentLevel == old(equipmentLevel)
      ensures isEquipped == old(isEquipped) && equipmentSlot == old(equipmentSlot)
      ensures itemRequirements == old(itemRequirements)
    {
      equipmentName := itemTemplate.itemName;
      itemType := itemTemplate.itemType;
      ghost var previous := equipmentRarity;

      if |raritySettings| < 1 { return Threw(ArgumentOutOfRange); }
      if MeetsThreshold(randomWeight, raritySettings[0].rarityDropChance) {
        equipmentRarity := Common;
      }
      assert equipmentRarity == RarityCascade(raritySettings, randomWeight, previous, 1);
      if |raritySettings| < 2 { return Threw(ArgumentOutOfRange); }
      if MeetsThreshold(randomWeight, raritySettings[1].rarityDropChance) {
        equipmentRarity := Uncommon;
      }
      assert equipmentRarity == RarityCascade(raritySettings, randomWeight, previous, 2);
      if |raritySettings| < 3 { return Threw(ArgumentOutOfRange); }
      if MeetsThreshold(randomWeight, raritySettings[2].rarityDropChance) {
        equipmentRarity := Rare;
      }
      assert equipmentRarity == RarityCascade(raritySettings, randomWeight, previous, 3);
      if |raritySettings| < 4 { return Threw(ArgumentOutOfRange); }
      if MeetsThreshold(randomWeight, raritySettings[3].rarityDropChance) {
        equipmentRarity := Epic;
      }
      assert equipmentRarity == RarityCascade(raritySettings, randomWeight, previous, 4);
      if |raritySettings| < 5 { return Threw(ArgumentOutOfRange); }
      if MeetsThreshold(randomWeight, raritySettings[4].rarityDropChance) {
        equipmentRarity := Unique;
      }
      assert equipmentRarity == RarityCascade(raritySettings, randomWeight, previous, 5);

      equipmentLevel := levelRoll;
      outcome := Completed;
    }

    /** GenerateItemNameTypeAndLevel(itemTemplate, itemRarity): as above, but
        the rarity is the given one rather than rolled. */
    method GenerateItemNameTypeAndLevelWithRarity(itemTemplate: ItemTemplate, itemRarity: ItemRarity,
                                                  playerLevel: int, levelRoll: int)
      requires RangeRoll(levelRoll, playerLevel, playerLevel + RarityOrdinal(itemRarity))
      modifies this
      ensures equipmentName == itemTemplate.itemName && itemType == itemTemplate.itemType
      ensures equipmentRarity == itemRarity && equipmentLevel == levelRoll
      ensures playerLevel <= equipmentLevel && (itemRarity == Common ==> equipmentLevel == playerLevel)
      ensures isEquipped == old(isEquipped) && equipmentSlot == old(equipmentSlot)
      ensures itemRequirements == old(itemRequirements)
    {
      equipmentName := itemTemplate.itemName;
      itemType := itemTemplate.itemType;
      equipmentRarity := itemRarity;
      equipmentLevel := levelRoll;
    }

    /** GenerateItemRequirements: the level requirement is the item's level,
        and each attribute requirement grows from the template's base with
        the level and the multiplier of the item's rarity (0 when no settings
        entry has that rarity). */
    method GenerateItemRequirements(templateItemRequirements: ItemRequirements, raritySettings: seq<ItemRaritySettings>)
      modifies this
      ensures itemRequirements ==
                Requirements(templateItemRequirements, equipmentLevel,
                             FindRaritySettings(raritySettings, equipmentRarity).rarityMultiplier)
      ensures itemRequirements.playerLevelRequirement == equipmentLevel
      ensures equipmentName == old(equipmentName) && equipmentRarity == old(equipmentRarity)
      ensures equipmentLevel == old(equipmentLevel) && itemType == old(itemType)
      ensures isEquipped == old(isEquipped) && equipmentSlot == old(equipmentSlot)
    {
      var template := templateItemRequirements;
      var rarityMultiplier := FindRaritySettings(raritySettings, equipmentRarity).rarityMultiplier;
      var strength := AttributeRequirement(template.playerStrengthRequirement, equipmentLevel, rarityMultiplier);
      var dexterity := AttributeRequirement(template.playerDexterityRequirement, equipmentLevel, rarityMultiplier);
      var intelligence := AttributeRequirement(template.playerIntelligenceRequirement, equipmentLevel, rarityMultiplier);
      itemRequirements := itemRequirements.(playerLevelRequirement := equipmentLevel);
      itemRequirements := itemRequirements.(playerStrengthRequirement := strength);
      itemRequirements := itemRequirements.(playerDexterityRequirement := dexterity);
      itemRequirements := itemRequirements.(playerIntelligenceRequirement := intelligence);
    }

    /** CheckItemRequirements, given the player's level and attributes. */
    function CheckItemRequirements(playerLevel: int, attributes: PlayerStats): (ok: bool)
      reads this
      ensures !ok <==> playerLevel < itemRequirements.playerLevelRequirement ||
                       attributes.strength < itemRequirements.playerStrengthRequirement ||
                       attributes.dexterity < itemRequirements.playerDexterityRequirement ||
                       attributes.intelligence < itemRequirements.playerIntelligenceRequirement
    {
      MeetsRequirements(itemRequirements, playerLevel, attributes)
    }
  }
}
