/** The enumerations and plain records that the item and stat rules share:
    RpgManager's nested structs and enums, and the item template with its
    affix record. They carry no behaviour of their own, apart from the
    component-wise arithmetic on CorePlayerStats that the armour totals use
    and List.Find over the rarity settings. */
module RpgTypes {

  datatype Option<+T> = None | Some(value: T)

  /** The exceptions the source throws on its error paths. */
  datatype Exception = NullReference | ArgumentOutOfRange | InvalidOperation

  /** How a state-changing handler ended: normally, or by throwing. */
  datatype Outcome = Completed | Threw(exception: Exception)

  /** A value, or the exception that computing it throws. */
  datatype Result<+T> = Ok(value: T) | Err(exception: Exception)

  /** UnityEngine.Random.Range(min, max) on ints: the roll lies in the
      half-open range [min, max), and equals min when the range is empty. */
  predicate RangeRoll(roll: int, min: int, max: int) {
    if min < max then min <= roll < max else roll == min
  }

  datatype ElementalDamageType = Fire | Ice | Lightning | Poison

  /** Every elemental damage type, in declaration order. */
  const AllElements: seq<ElementalDamageType> := [Fire, Ice, Lightning, Poison]

  datatype ItemRarity = Common | Uncommon | Rare | Epic | Unique

  /** The integer value of a rarity, `(int)rarity` in the source. */
  function RarityOrdinal(r: ItemRarity): (n: nat)
    ensures n < 5
  {
    match r
    case Common => 0
    case Uncommon => 1
    case Rare => 2
    case Epic => 3
    case Unique => 4
  }

  /** The rarity whose integer value is i, `(ItemRarity)i` in the source. */
  function RarityFromOrdinal(i: nat): (r: ItemRarity)
    requires i < 5
    ensures RarityOrdinal(r) == i
  {
    if i == 0 then Common
    else if i == 1 then Uncommon
    else if i == 2 then Rare
    else if i == 3 then Epic
    else Unique
  }

  /** Every rarity is the rarity of its own integer value. */
  lemma RarityOrdinalRoundTrip(r: ItemRarity)
    ensures RarityFromOrdinal(RarityOrdinal(r)) == r
  {
  }

  datatype CorePlayerStats = CorePlayerStats(
    strength: int, dexterity: int, intelligence: int,
    vitality: int, magic: int, luck: int)

  const ZeroStats := CorePlayerStats(0, 0, 0, 0, 0, 0)

  function AddStats(a: CorePlayerStats, b: CorePlayerStats): CorePlayerStats {
    CorePlayerStats(a.strength + b.strength, a.dexterity + b.dexterity,
                    a.intelligence + b.intelligence, a.vitality + b.vitality,
                    a.magic + b.magic, a.luck + b.luck)
  }

  function SubStats(a: CorePlayerStats, b: CorePlayerStats): CorePlayerStats {
    CorePlayerStats(a.strength - b.strength, a.dexterity - b.dexterity,
                    a.intelligence - b.intelligence, a.vitality - b.vitality,
                    a.magic - b.magic, a.luck - b.luck)
  }

  datatype StatRange<T> = StatRange(min: T, max: T)

  datatype ItemRaritySettings = ItemRaritySettings(
    rarity: ItemRarity,
    rarityMultiplier: real,
    rarityAffixBonusRange: StatRange<int>,
    rarityDropChance: real)

  /** default(ItemRaritySettings): what List.Find returns when nothing matches. */
  const DefaultRaritySettings := ItemRaritySettings(Common, 0.0, StatRange(0, 0), 0.0)

  datatype ItemTier = ItemTier(
    itemTier: int,
    tierLevelRange: StatRange<int>,
    tierStatsRange: StatRange<CorePlayerStats>)

  datatype ElementalDamage = ElementalDamage(damageType: ElementalDamageType, amount: real)

  datatype ItemType = Weapon | Armour | Accessory | Potion

  datatype AffixType =
    | AddedStrength
    | AddedIntelligence
    | AddedDexterity
    | AddedHealth
    | IncreasedPhysicalDamage
    | IncreasedCritChance
    | AddedElementalDamageToWeapon
    | AddedArmour
    | IncreasedFireResistance
    | IncreasedIceResistance
    | IncreasedLightningResistance
    | IncreasedPoisonResistance

  /** A rolled item modifier (the source calls it Suffix or Affix). */
  datatype Affix = Affix(affixType: AffixType, value: int)

  /** The sum of the values of the affixes of one type. */
  function AffixTotal(affixes: seq<Affix>, t: AffixType): int {
    if |affixes| == 0 then 0
    else
      var last := affixes[|affixes| - 1];
      AffixTotal(affixes[..|affixes| - 1], t) + (if last.affixType == t then last.value else 0)
  }

  datatype ArmourType = Head | Chest | Gauntlets | Legs | Boots | Ring

  datatype WeaponType = TwoHandedSword | OneHandedSword | Axe | Dagger | Bow | Staff | Crossbow

  datatype ItemRequirements = ItemRequirements(
    playerStrengthRequirement: int,
    playerDexterityRequirement: int,
    playerIntelligenceRequirement: int,
    playerLevelRequirement: int)

  /** Which subclass of ItemTemplate a template asset is. */
  datatype TemplateDefinition =
    | GenericTemplate
    | WeaponTemplate(weaponType: WeaponType)
    | ArmourTemplate(armourType: ArmourType, possibleAffixes: seq<Affix>)

  datatype ItemTemplate = ItemTemplate(
    itemName: string,
    itemType: ItemType,
    baselineItemRequirements: ItemRequirements,
    definition: TemplateDefinition)

  /** `raritySettings.Find(e => e.rarity == rarity)`: the first settings entry
      of that rarity, or the default entry when there is none. */
  function FindRaritySettings(settings: seq<ItemRaritySettings>, rarity: ItemRarity): (found: ItemRaritySettings)
    ensures (exists i :: 0 <= i < |settings| && settings[i].rarity == rarity) ==>
              found.rarity == rarity &&
              exists i :: 0 <= i < |settings| && settings[i] == found &&
                          forall j :: 0 <= j < i ==> settings[j].rarity != rarity
    ensures (forall i :: 0 <= i < |settings| ==> settings[i].rarity != rarity) ==>
              found == DefaultRaritySettings
  {
    if |settings| == 0 then DefaultRaritySettings
    else if settings[0].rarity == rarity then settings[0]
    else
      var rest := FindRaritySettings(settings[1..], rarity);
      assert forall i :: 1 <= i < |settings| ==> settings[i] == settings[1..][i - 1];
      rest
  }
}
