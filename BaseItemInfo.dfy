/** BaseItemInfo: the name, rarity and level every generated item starts
    from. The rarity here is uniform over the five rarities, and the level is
    drawn from the half-open range that the rarity opens above the player's
    level. */
module ItemInfo {
  import opened RpgTypes

  datatype EquipmentSlot = MainHand | OffHand | Head | Body | Legs | Feet

  /** The level an item of the given rarity may take for a player of level
      `playerLevel`: Random.Range(playerLevel, playerLevel + (int)rarity). */
  predicate LevelRoll(level: int, playerLevel: int, rarity: ItemRarity) {
    RangeRoll(level, playerLevel, playerLevel + RarityOrdinal(rarity))
  }

  /** The rolled level never falls below the player's level and stays below
      playerLevel + (int)rarity; Common and Uncommon items are always exactly
      at the player's level, and only Unique items can be three levels above. */
  lemma LevelRollBounds(level: int, playerLevel: int, rarity: ItemRarity)
    requires LevelRoll(level, playerLevel, rarity)
    ensures playerLevel <= level
    ensures rarity == Common || rarity == Uncommon ==> level == playerLevel
    ensures rarity != Common ==> level < playerLevel + RarityOrdinal(rarity)
    ensures level <= playerLevel + 3
    ensures level == playerLevel + 3 ==> rarity == Unique
  {
  }

  class BaseItemInfo {
    var equipmentName: string
    var equipmentRarity: ItemRarity
    var equipmentLevel: int
    var isEquipped: bool
    var itemType: ItemType
    var equipmentSlot: EquipmentSlot

    /** A fresh component with every field at its default. */
    constructor ()
      ensures equipmentName == [] && equipmentRarity == Common && equipmentLevel == 0
      ensures !isEquipped && itemType == Weapon && equipmentSlot == MainHand
    {
      equipmentName := [];
      equipmentRarity := Common;
      equipmentLevel := 0;
      isEquipped := false;
      itemType := Weapon;
      equipmentSlot := MainHand;
    }

    /** GenerateBaseItemInfo: copies the template's name and type, takes the
        rarity whose integer value is `rarityRoll` (Random.Range(0, 5)) and
        the level `levelRoll` drawn for that rarity. */
    method GenerateBaseItemInfo(itemTemplate: ItemTemplate, playerLevel: int, rarityRoll: int, levelRoll: int)
      requires RangeRoll(rarityRoll, 0, 5)
      requires RangeRoll(levelRoll, playerLevel, playerLevel + rarityRoll)
      modifies this
      ensures equipmentName == itemTemplate.itemName && itemType == itemTemplate.itemType
      ensures RarityOrdinal(equipmentRarity) == rarityRoll
      ensures equipmentLevel == levelRoll && LevelRoll(equipmentLevel, playerLevel, equipmentRarity)
      ensures isEquipped == old(isEquipped) && equipmentSlot == old(equipmentSlot)
    {
      equipmentName := itemTemplate.itemName;
      itemType := itemTemplate.itemType;
      equipmentRarity := RarityFromOrdinal(rarityRoll);
      equipmentLevel := levelRoll;
    }

    /** GenerateStats: the base implementation does nothing. */
    method GenerateStats(itemTemplate: ItemTemplate)
    {
    }
  }

  /** Every rarity has a roll in [0, 5) that produces it, together with a
      level roll that the rarity allows, so uniform rarity reaches all five. */
  lemma EveryRarityReachable(r: ItemRarity, playerLevel: int)
    ensures exists roll :: RangeRoll(roll, 0, 5) && RarityFromOrdinal(roll) == r &&
                           RangeRoll(playerLevel, playerLevel, playerLevel + roll)
  {
    var roll := RarityOrdinal(r);
    RarityOrdinalRoundTrip(r);
    assert RangeRoll(roll, 0, 5) && RarityFromOrdinal(roll) == r;
    assert RangeRoll(playerLevel, playerLevel, playerLevel + roll);
  }
}
