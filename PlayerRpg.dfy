/** PlayerRpgController: the player's stat ledger and the handlers that the
    equipment events call when a weapon or an armour piece is equipped or
    unequipped. The handlers are modelled as methods on the controller; each
    is specified by a pure transition on PlayerState, the snapshot of the
    controller's fields, and the lemmas below are about those transitions. */
module PlayerRpg {
  import opened RpgTypes
  import opened BaselineArmour

  /** The player's attribute block. */
  datatype PlayerStats = PlayerStats(
    strength: int, intelligence: int, dexterity: int,
    vitality: int, magic: int, luck: int)

  /** The weapon fields the handlers read. */
  datatype WeaponStats = WeaponStats(
    physicalDamage: int,
    attackSpeed: int,
    attackRange: real,
    criticalDamageChance: real,
    critMultiplier: real,
    elementalDamage: ElementalDamage,
    generatedAffixes: Option<seq<Affix>>)

  /** A snapshot of every field of the controller. */
  datatype PlayerState = PlayerState(
    level: int,
    exp: int,
    health: int,
    maxHealth: int,
    physicalDamage: real,
    elementalDamage: seq<ElementalDamage>,
    attackSpeed: real,
    attackRange: real,
    criticalChance: real,
    criticalDamageMultiplier: real,
    armour: BaselineArmourStats,
    resistances: seq<ElementalResistance>,
    attributes: PlayerStats)

  /** A handler's resulting state, and whether it completed or threw. */
  datatype Handled = Handled(state: PlayerState, outcome: Outcome)

  /** The state Awake leaves: the serialised level and attributes, no
      experience, 100 of 100 health, and a resistance table with one row per
      element at 0%. Every other field holds its default. */
  function StartingState(level: int, attributes: PlayerStats): PlayerState {
    PlayerState(level, 0, 100, 100, 0.0, [], 0.0, 0.0, 0.0, 0.0,
                EmptyArmourStats, ZeroResistances(AllElements), attributes)
  }

  lemma StartingStateTable(level: int, attributes: PlayerStats)
    ensures StartingState(level, attributes).exp == 0
    ensures StartingState(level, attributes).health == StartingState(level, attributes).maxHealth == 100
    ensures StartingState(level, attributes).resistances ==
              [ElementalResistance(Fire, 0.0), ElementalResistance(Ice, 0.0),
               ElementalResistance(Lightning, 0.0), ElementalResistance(Poison, 0.0)]
  {
    var rows := StartingState(level, attributes).resistances;
    assert |rows| == 4;
  }

  /** `+v` on equip and `-v` on unequip. */
  function Signed(v: int, equip: bool): int {
    if equip then v else -v
  }

  /** What one iteration of a weapon handler's affix loop does. */
  function WeaponAffixEffect(s: PlayerState, a: Affix, equip: bool): PlayerState {
    var v := Signed(a.value, equip);
    match a.affixType
    case AddedStrength => s.(attributes := s.attributes.(strength := s.attributes.strength + v))
    case AddedIntelligence => s.(attributes := s.attributes.(intelligence := s.attributes.intelligence + v))
    case AddedDexterity => s.(attributes := s.attributes.(dexterity := s.attributes.dexterity + v))
    case AddedHealth => s.(maxHealth := s.maxHealth + v)
    case IncreasedPhysicalDamage => s.(physicalDamage := s.physicalDamage + v as real)
    case IncreasedCritChance => s.(criticalChance := s.criticalChance + v as real)
    case AddedElementalDamageToWeapon => s
    case AddedArmour => s
    case IncreasedFireResistance => s
    case IncreasedIceResistance => s
    case IncreasedLightningResistance => s
    case IncreasedPoisonResistance => s
  }

  /** The weapon affix loop over a whole list, in list order. */
  function ApplyWeaponAffixes(s: PlayerState, affixes: seq<Affix>, equip: bool): PlayerState {
    if |affixes| == 0 then s
    else WeaponAffixEffect(ApplyWeaponAffixes(s, affixes[..|affixes| - 1], equip), affixes[|affixes| - 1], equip)
  }

  /** The weapon affix loop moves strength, intelligence, dexterity, maximum
      health, physical damage and crit chance by the signed total of the
      matching affixes, and touches no other field. */
  lemma {:induction false} WeaponAffixTotals(s: PlayerState, affixes: seq<Affix>, equip: bool)
    ensures var r := ApplyWeaponAffixes(s, affixes, equip);
      && r.attributes.strength == s.attributes.strength + Signed(AffixTotal(affixes, AddedStrength), equip)
      && r.attributes.intelligence == s.attributes.intelligence + Signed(AffixTotal(affixes, AddedIntelligence), equip)
      && r.attributes.dexterity == s.attributes.dexterity + Signed(AffixTotal(affixes, AddedDexterity), equip)
      && r.maxHealth == s.maxHealth + Signed(AffixTotal(affixes, AddedHealth), equip)
      && r.physicalDamage == s.physicalDamage + Signed(AffixTotal(affixes, IncreasedPhysicalDamage), equip) as real
      && r.criticalChance == s.criticalChance + Signed(AffixTotal(affixes, IncreasedCritChance), equip) as real
      && r.attributes.vitality == s.attributes.vitality
      && r.attributes.magic == s.attributes.magic
      && r.attributes.luck == s.attributes.luck
      && r.(attributes := s.attributes, maxHealth := s.maxHealth,
            physicalDamage := s.physicalDamage, criticalChance := s.criticalChance) == s
  {
    if |affixes| > 0 {
      WeaponAffixTotals(s, affixes[..|affixes| - 1], equip);
    }
  }

  /** `list.Remove(x)`: drops the first element equal to x, if any. */
  function RemoveFirst(s: seq<ElementalDamage>, x: ElementalDamage): seq<ElementalDamage> {
    if |s| == 0 then []
    else if s[0] == x then s[1..]
    else [s[0]] + RemoveFirst(s[1..], x)
  }

  lemma {:induction false} RemoveFirstMultiset(s: seq<ElementalDamage>, x: ElementalDamage)
    ensures x in s ==> multiset(RemoveFirst(s, x)) == multiset(s) - multiset{x}
    ensures x !in s ==> RemoveFirst(s, x) == s
  {
    if |s| > 0 {
      assert s == [s[0]] + s[1..];
      if s[0] != x {
        RemoveFirstMultiset(s[1..], x);
      }
    }
  }

  /** The first part of IncreasePlayerStats(WeaponStats): physical damage,
      attack speed, attack range, crit chance and crit multiplier are
      overwritten with the weapon's values and its elemental damage is
      appended once. */
  function EquipWeaponFields(s: PlayerState, w: WeaponStats): PlayerState {
    s.(physicalDamage := w.physicalDamage as real,
       elementalDamage := s.elementalDamage + [w.elementalDamage],
       attackSpeed := w.attackSpeed as real,
       attackRange := w.attackRange,
       criticalChance := w.criticalDamageChance,
       criticalDamageMultiplier := w.critMultiplier)
  }

  /** IncreasePlayerStats(WeaponStats): the weapon's fields, then the affix
      loop unless the affix list is null. */
  function IncreaseWithWeapon(s: PlayerState, w: WeaponStats): PlayerState {
    match w.generatedAffixes
    case None => EquipWeaponFields(s, w)
    case Some(affixes) => ApplyWeaponAffixes(EquipWeaponFields(s, w), affixes, true)
  }

  /** The first part of DecreasePlayerStats(WeaponStats): the weapon's values
      are subtracted and its elemental damage removed. */
  function UnequipWeaponFields(s: PlayerState, w: WeaponStats): PlayerState {
    s.(physicalDamage := s.physicalDamage - w.physicalDamage as real,
       elementalDamage := RemoveFirst(s.elementalDamage, w.elementalDamage),
       attackSpeed := s.attackSpeed - w.attackSpeed as real,
       attackRange := s.attackRange - w.attackRange,
       criticalChance := s.criticalChance - w.criticalDamageChance,
       criticalDamageMultiplier := s.criticalDamageMultiplier - w.critMultiplier)
  }

  /** DecreasePlayerStats(WeaponStats): with no null check before the affix
      loop, a null affix list throws after the weapon's fields have already
      been subtracted. */
  function DecreaseWithWeapon(s: PlayerState, w: WeaponStats): Handled {
    match w.generatedAffixes
    case None => Handled(UnequipWeaponFields(s, w), Threw(NullReference))
    case Some(affixes) => Handled(ApplyWeaponAffixes(UnequipWeaponFields(s, w), affixes, false), Completed)
  }

  /** Equipping a weapon overwrites rather than adds: the five weapon fields
      after equipping do not depend on their previous values, so equipping
      the same weapon twice leaves them as equipping it once does, while the
      attributes move by the affix totals each time. */
  lemma WeaponIncreaseOverwrites(s: PlayerState, t: PlayerState, w: WeaponStats)
    ensures var a := IncreaseWithWeapon(s, w); var b := IncreaseWithWeapon(t, w);
      && a.physicalDamage == b.physicalDamage
      && a.attackSpeed == b.attackSpeed == w.attackSpeed as real
      && a.attackRange == b.attackRange == w.attackRange
      && a.criticalChance == b.criticalChance
      && a.criticalDamageMultiplier == b.criticalDamageMultiplier == w.critMultiplier
    ensures IncreaseWithWeapon(IncreaseWithWeapon(s, w), w).physicalDamage == IncreaseWithWeapon(s, w).physicalDamage
    ensures w.generatedAffixes.Some? ==>
              IncreaseWithWeapon(s, w).attributes.strength ==
              s.attributes.strength + AffixTotal(w.generatedAffixes.value, AddedStrength)
  {
    if w.generatedAffixes.Some? {
      var affixes := w.generatedAffixes.value;
      WeaponAffixTotals(EquipWeaponFields(s, w), affixes, true);
      WeaponAffixTotals(EquipWeaponFields(t, w), affixes, true);
      WeaponAffixTotals(EquipWeaponFields(IncreaseWithWeapon(s, w), w), affixes, true);
    }
  }

  /** The fields the weapon affix loop moves come back after equipping and
      unequipping the same weapon: attributes and maximum health to their
      old values, physical damage and crit chance to 0. */
  lemma WeaponRoundTripMoved(s: PlayerState, w: WeaponStats, affixes: seq<Affix>)
    ensures var up := ApplyWeaponAffixes(EquipWeaponFields(s, w), affixes, true);
      var t := ApplyWeaponAffixes(UnequipWeaponFields(up, w), affixes, false);
      && t.attributes == s.attributes
      && t.maxHealth == s.maxHealth
      && t.physicalDamage == 0.0
      && t.criticalChance == 0.0
  {
    var up := ApplyWeaponAffixes(EquipWeaponFields(s, w), affixes, true);
    WeaponAffixTotals(EquipWeaponFields(s, w), affixes, true);
    WeaponAffixTotals(UnequipWeaponFields(up, w), affixes, false);
  }

  /** The fields the weapon affix loop leaves alone after equipping and
      unequipping the same weapon: the elemental damage list is restored as
      a multiset, attack speed, attack range and crit multiplier are 0, and
      the rest is untouched. */
  lemma WeaponRoundTripKept(s: PlayerState, w: WeaponStats, affixes: seq<Affix>)
    ensures var up := ApplyWeaponAffixes(EquipWeaponFields(s, w), affixes, true);
      var t := ApplyWeaponAffixes(UnequipWeaponFields(up, w), affixes, false);
      && multiset(t.elementalDamage) == multiset(s.elementalDamage)
      && t.attackSpeed == 0.0
      && t.attackRange == 0.0
      && t.criticalDamageMultiplier == 0.0
      && t.level == s.level && t.exp == s.exp && t.health == s.health
      && t.armour == s.armour && t.resistances == s.resistances
  {
    var up := ApplyWeaponAffixes(EquipWeaponFields(s, w), affixes, true);
    WeaponAffixTotals(EquipWeaponFields(s, w), affixes, true);
    WeaponAffixTotals(UnequipWeaponFields(up, w), affixes, false);
    var list := s.elementalDamage + [w.elementalDamage];
    assert up.elementalDamage == list;
    RemoveFirstMultiset(list, w.elementalDamage);
    assert w.elementalDamage in list;
  }

  /** Equipping and then unequipping the same weapon restores the
      attributes, the maximum health and the elemental damage list (as a
      multiset), and leaves physical damage, attack speed, attack range,
      crit chance and crit multiplier at 0, whatever they were before;
      level, experience, health, armour and resistances are untouched. */
  lemma WeaponEquipUnequip(s: PlayerState, w: WeaponStats)
    requires w.generatedAffixes.Some?
    ensures var t := DecreaseWithWeapon(IncreaseWithWeapon(s, w), w);
      && t.outcome == Completed
      && t.state.attributes == s.attributes
      && t.state.maxHealth == s.maxHealth
      && multiset(t.state.elementalDamage) == multiset(s.elementalDamage)
      && t.state.physicalDamage == 0.0
      && t.state.attackSpeed == 0.0
      && t.state.attackRange == 0.0
      && t.state.criticalChance == 0.0
      && t.state.criticalDamageMultiplier == 0.0
      && t.state.level == s.level && t.state.exp == s.exp && t.state.health == s.health
      && t.state.armour == s.armour && t.state.resistances == s.resistances
  {
    WeaponRoundTripMoved(s, w, w.generatedAffixes.value);
    WeaponRoundTripKept(s, w, w.generatedAffixes.value);
  }

  /** A null affix list is harmless when equipping a weapon and throws
      NullReferenceException when unequipping it. */
  lemma WeaponNullAffixes(s: PlayerState, w: WeaponStats)
    requires w.generatedAffixes.None?
    ensures IncreaseWithWeapon(s, w).attributes == s.attributes
    ensures DecreaseWithWeapon(s, w).outcome == Threw(NullReference)
    ensures DecreaseWithWeapon(s, w).state.attributes == s.attributes
  {
  }

  /** IncreasePlayerStats(ArmourStats): adds a DeepCopy of the armour's
      stats to the totals; the copy never has affixes, so the affix loop
      after the null check is never entered. */
  function IncreaseWithArmour(s: PlayerState, a: BaselineArmourStats): PlayerState {
    s.(armour := Plus(s.armour, DeepCopy(a)))
  }

  /** DecreasePlayerStats(ArmourStats): subtracts a DeepCopy of the armour's
      stats from the totals; as above, the affix loop is never entered. */
  function DecreaseWithArmour(s: PlayerState, a: BaselineArmourStats): PlayerState {
    s.(armour := Minus(s.armour, DeepCopy(a)))
  }

  /** The armour handlers change only the armour totals, whatever affixes the
      armour carries, and equipping then unequipping restores the totals of
      physical armour, magical armour and stat bonuses. */
  lemma ArmourEquipUnequip(s: PlayerState, a: BaselineArmourStats)
    ensures IncreaseWithArmour(s, a).(armour := s.armour) == s
    ensures DecreaseWithArmour(s, a).(armour := s.armour) == s
    ensures IncreaseWithArmour(s, a).armour.physicalArmour == s.armour.physicalArmour + a.physicalArmour
    ensures IncreaseWithArmour(s, a) == IncreaseWithArmour(s, a.(generatedAffixes := None))
    ensures SameTotals(DecreaseWithArmour(IncreaseWithArmour(s, a), a).armour, s.armour)
  {
    MinusUndoesPlus(s.armour, DeepCopy(a));
  }

  /** What one iteration of the armour handlers' affix loop would do, were it
      reached; the resistance cases call IncreaseElementalResistance, which
      changes nothing. */
  function ArmourAffixEffect(s: PlayerState, a: Affix, equip: bool): PlayerState {
    var v := Signed(a.value, equip);
    match a.affixType
    case AddedArmour => s.(armour := s.armour.(physicalArmour := s.armour.physicalArmour + v))
    case _ => WeaponAffixEffect(s, a, equip)
  }

  function ApplyArmourAffixSeq(s: PlayerState, affixes: seq<Affix>, equip: bool): PlayerState {
    if |affixes| == 0 then s
    else ArmourAffixEffect(ApplyArmourAffixSeq(s, affixes[..|affixes| - 1], equip), affixes[|affixes| - 1], equip)
  }

  /** The armour affix loop, were it reached, would leave the resistance table
      as it was, since every resistance case edits a copy. */
  lemma {:induction false} ArmourAffixesKeepResistances(s: PlayerState, affixes: seq<Affix>, equip: bool)
    ensures ApplyArmourAffixSeq(s, affixes, equip).resistances == s.resistances
    ensures ApplyArmourAffixSeq(s, affixes, equip).elementalDamage == s.elementalDamage
    ensures ApplyArmourAffixSeq(s, affixes, equip).armour.physicalArmour ==
              s.armour.physicalArmour + Signed(AffixTotal(affixes, AddedArmour), equip)
  {
    if |affixes| > 0 {
      ArmourAffixesKeepResistances(s, affixes[..|affixes| - 1], equip);
    }
  }

  /** The resistance table after adding `increase` to the first row of the
      given type: what IncreaseElementalResistance evidently means to do. */
  function IncreasedResistances(rows: seq<ElementalResistance>, t: ElementalDamageType, increase: real): seq<ElementalResistance> {
    match FirstIndexOf(rows, t)
    case None => rows
    case Some(i) => rows[i := rows[i].(resistancePercentage := rows[i].resistancePercentage + increase)]
  }

  /** On the starting table every element has a row, so a non-zero increase
      changes that row's percentage and nothing else. */
  lemma IncreasedResistancesOnStartingTable(level: int, attributes: PlayerStats, t: ElementalDamageType, increase: real)
    requires increase != 0.0
    ensures var rows := StartingState(level, attributes).resistances;
      && |IncreasedResistances(rows, t, increase)| == |rows|
      && FindResistance(IncreasedResistances(rows, t, increase), t).resistancePercentage == increase
      && IncreasedResistances(rows, t, increase) != rows
  {
    var rows := StartingState(level, attributes).resistances;
    StartingStateTable(level, attributes);
    var k := if t == Fire then 0 else if t == Ice then 1 else if t == Lightning then 2 else 3;
    assert rows[k].damageType == t;
    var i := FirstIndexOf(rows, t);
    assert i.Some? && i.value <= k;
    assert rows[i.value].resistancePercentage == 0.0;
    var r := IncreasedResistances(rows, t, increase);
    FirstIndexOfSameTypes(r, rows, t);
    assert r[i.value].resistancePercentage == increase;
  }

  class PlayerRpgController {
    var currentPlayerLevel: int
    var currentPlayerExp: int
    var currentPlayerHealth: int
    var playerMaxHealth: int
    var currentPhysicalDamage: real
    var currentElementalDamage: seq<ElementalDamage>
    var currentAttackSpeed: real
    var currentAttackRange: real
    var currentCriticalChance: real
    var currentCriticalDamageMultiplier: real
    var totalPlayerArmourStats: BaselineArmourStats
    var currentElementalResistances: seq<ElementalResistance>
    var currentPlayerAttributes: PlayerStats

    function State(): PlayerState
      reads this
    {
      PlayerState(currentPlayerLevel, currentPlayerExp, currentPlayerHealth, playerMaxHealth,
                  currentPhysicalDamage, currentElementalDamage, currentAttackSpeed, currentAttackRange,
                  currentCriticalChance, currentCriticalDamageMultiplier, totalPlayerArmourStats,
                  currentElementalResistances, currentPlayerAttributes)
    }

    /** Awake, given the serialised level and attributes. */
    constructor (level: int, attributes: PlayerStats)
      ensures State() == StartingState(level, attributes)
    {
      currentPlayerLevel := level;
      currentPlayerAttributes := attributes;
      currentPhysicalDamage, currentElementalDamage := 0.0, [];
      currentAttackSpeed, currentAttackRange := 0.0, 0.0;
      currentCriticalChance, currentCriticalDamageMultiplier := 0.0, 0.0;
      totalPlayerArmourStats := EmptyArmourStats;
      currentPlayerExp := 0;
      currentPlayerHealth := 100;
      playerMaxHealth := 100;
      var rows := [
        ElementalResistance(Fire, 0.0),
        ElementalResistance(Ice, 0.0),
        ElementalResistance(Lightning, 0.0),
        ElementalResistance(Poison, 0.0)
      ];
      assert rows == ZeroResistances(AllElements);
      currentElementalResistances := rows;
    }

    /** One iteration of a weapon handler's affix loop. */
    method ApplyWeaponAffix(affix: Affix, equip: bool)
      modifies this
      ensures State() == WeaponAffixEffect(old(State()), affix, equip)
    {
      var v := Signed(affix.value, equip);
      match affix.affixType {
        case AddedStrength =>
          currentPlayerAttributes := currentPlayerAttributes.(strength := currentPlayerAttributes.strength + v);
        case AddedIntelligence =>
          currentPlayerAttributes := currentPlayerAttributes.(intelligence := currentPlayerAttributes.intelligence + v);
        case AddedDexterity =>
          currentPlayerAttributes := currentPlayerAttributes.(dexterity := currentPlayerAttributes.dexterity + v);
        case AddedHealth =>
          playerMaxHealth := playerMaxHealth + v;
        case IncreasedPhysicalDamage =>
          currentPhysicalDamage := currentPhysicalDamage + v as real;
        case IncreasedCritChance =>
          currentCriticalChance := currentCriticalChance + v as real;
        case AddedElementalDamageToWeapon =>
        case AddedArmour =>
        case IncreasedFireResistance =>
        case IncreasedIceResistance =>
        case IncreasedLightningResistance =>
        case IncreasedPoisonResistance =>
      }
    }

    /** The weapon handlers' `foreach` over the affix list. */
    method ApplyWeaponAffixList(affixes: seq<Affix>, equip: bool)
      modifies this
      ensures State() == ApplyWeaponAffixes(old(State()), affixes, equip)
    {
      ghost var start := State();
      var i := 0;
      while i < |affixes|
        invariant 0 <= i <= |affixes|
        invariant State() == ApplyWeaponAffixes(start, affixes[..i], equip)
      {
        ApplyWeaponAffix(affixes[i], equip);
        assert affixes[..i + 1][..i] == affixes[..i];
        i := i + 1;
      }
      assert affixes[..i] == affixes;
    }

    /** IncreasePlayerStats(WeaponStats). */
    method IncreasePlayerStatsWeapon(weaponStats: WeaponStats)
      modifies this
      ensures State() == IncreaseWithWeapon(old(State()), weaponStats)
    {
      currentPhysicalDamage := weaponStats.physicalDamage as real;
      currentElementalDamage := currentElementalDamage + [weaponStats.elementalDamage];
      currentAttackSpeed := weaponStats.attackSpeed as real;
      currentAttackRange := weaponStats.attackRange;
      currentCriticalChance := weaponStats.criticalDamageChance;
      currentCriticalDamageMultiplier := weaponStats.critMultiplier;

      if weaponStats.generatedAffixes.None? {
        return;
      }
      ApplyWeaponAffixList(weaponStats.generatedAffixes.value, true);
    }

    /** DecreasePlayerStats(WeaponStats). */
    method DecreasePlayerStatsWeapon(weaponStats: WeaponStats) returns (outcome: Outcome)
      modifies this
      ensures Handled(State(), outcome) == DecreaseWithWeapon(old(State()), weaponStats)
    {
      currentPhysicalDamage := currentPhysicalDamage - weaponStats.physicalDamage as real;
      currentElementalDamage := RemoveFirst(currentElementalDamage, weaponStats.elementalDamage);
      currentAttackSpeed := currentAttackSpeed - weaponStats.attackSpeed as real;
      currentAttackRange := currentAttackRange - weaponStats.attackRange;
      currentCriticalChance := currentCriticalChance - weaponStats.criticalDamageChance;
      currentCriticalDamageMultiplier := currentCriticalDamageMultiplier - weaponStats.critMultiplier;

      if weaponStats.generatedAffixes.None? {
        return Threw(NullReference);
      }
      ApplyWeaponAffixList(weaponStats.generatedAffixes.value, false);
      outcome := Completed;
    }

    /** IncreasePlayerStats(ArmourStats), given the armour's generated stats. */
    method IncreasePlayerStatsArmour(generatedArmourStats: BaselineArmourStats)
      modifies this
      ensures State() == IncreaseWithArmour(old(State()), generatedArmourStats)
    {
      var armourStatsCopy := DeepCopy(generatedArmourStats);
      totalPlayerArmourStats := Plus(totalPlayerArmourStats, armourStatsCopy);
      // armourStatsCopy.generatedAffixes is always null here, so the
      // handler returns before its affix loop (see ApplyArmourAffixes).
    }

    /** DecreasePlayerStats(ArmourStats), given the armour's generated stats. */
    method DecreasePlayerStatsArmour(generatedArmourStats: BaselineArmourStats)
      modifies this
      ensures State() == DecreaseWithArmour(old(State()), generatedArmourStats)
    {
      var armourStatsCopy := DeepCopy(generatedArmourStats);
      totalPlayerArmourStats := Minus(totalPlayerArmourStats, armourStatsCopy);
    }

    /** The armour handlers' affix loop, which they never reach because the
        DeepCopy they iterate has no affix list. */
    method ApplyArmourAffixes(affixes: seq<Affix>, equip: bool)
      modifies this
      ensures State() == ApplyArmourAffixSeq(old(State()), affixes, equip)
    {
      ghost var start := State();
      var i := 0;
      while i < |affixes|
        invariant 0 <= i <= |affixes|
        invariant State() == ApplyArmourAffixSeq(start, affixes[..i], equip)
      {
        var affix := affixes[i];
        var v := Signed(affix.value, equip);
        match affix.affixType {
          case AddedArmour =>
            totalPlayerArmourStats := totalPlayerArmourStats.(physicalArmour := totalPlayerArmourStats.physicalArmour + v);
          case IncreasedFireResistance =>
            IncreaseElementalResistance(Fire, v as real);
          case IncreasedIceResistance =>
            IncreaseElementalResistance(Ice, v as real);
          case IncreasedLightningResistance =>
            IncreaseElementalResistance(Lightning, v as real);
          case IncreasedPoisonResistance =>
            IncreaseElementalResistance(Poison, v as real);
          case _ =>
            ApplyWeaponAffix(affix, equip);
        }
        assert affixes[..i + 1][..i] == affixes[..i];
        i := i + 1;
      }
      assert affixes[..i] == affixes;
    }

    /** IncreaseElementalResistance as written: List.Find returns a copy of
        the struct, and the increase is applied to that copy only. */
    method IncreaseElementalResistance(damageType: ElementalDamageType, resistanceIncrease: real)
      ensures currentElementalResistances == old(currentElementalResistances)
    {
      var resistance := FindResistance(currentElementalResistances, damageType);
      resistance := resistance.(resistancePercentage := resistance.resistancePercentage + resistanceIncrease);
    }

    /** IncreaseElementalResistance as evidently intended: the increase is
        written back to the first row of that type. */
    method IncreaseElementalResistanceCorrected(damageType: ElementalDamageType, resistanceIncrease: real)
      modifies this
      ensures State() == old(State()).(resistances :=
                IncreasedResistances(old(currentElementalResistances), damageType, resistanceIncrease))
    {
      var i := 0;
      while i < |currentElementalResistances|
        invariant 0 <= i <= |currentElementalResistances|
        invariant State() == old(State())
        invariant forall j :: 0 <= j < i ==> currentElementalResistances[j].damageType != damageType
      {
        if currentElementalResistances[i].damageType == damageType {
          var resistance := currentElementalResistances[i];
          resistance := resistance.(resistancePercentage := resistance.resistancePercentage + resistanceIncrease);
          currentElementalResistances := currentElementalResistances[i := resistance];
          return;
        }
        i := i + 1;
      }
    }
  }
}
