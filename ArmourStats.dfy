/** ArmourStats: a generated armour piece. Generation maps the armour type to
    an equipment slot, resets the resistance table, rolls baseline armour
    from per-type ranges, scales it by level and rarity, draws affixes from
    the template's candidates without replacement and folds them into the
    armour's bonuses and resistances. The piece also describes itself as a
    list of tooltip lines. */
module ArmourStats {
  import opened RpgTypes
  import opened BaselineArmour
  import opened ItemInfo

  /** Mathf.Clamp(v, lo, hi). */
  function Clamp(v: real, lo: real, hi: real): (r: real)
    requires lo <= hi
    ensures lo <= r <= hi
    ensures lo <= v <= hi ==> r == v
  {
    if v < lo then lo else if v > hi then hi else v
  }

  /** The C# `(int)` cast of a float: truncation toward zero. */
  function Trunc(x: real): (n: int)
    ensures 0.0 <= x ==> 0 <= n && n as real <= x < n as real + 1.0
    ensures x < 0.0 ==> n <= 0 && n as real - 1.0 < x <= n as real
  {
    if x >= 0.0 then x.Floor else -((-x).Floor)
  }

  /** The slot GenerateBaseArmourStats gives a piece of the given type; the
      types without a case keep the slot they had. */
  function MappedSlot(kind: ArmourType, current: EquipmentSlot): EquipmentSlot {
    match kind
    case Head => EquipmentSlot.Head
    case Chest => Body
    case Legs => EquipmentSlot.Legs
    case Boots => Feet
    case _ => current
  }

  /** The armour types that have a slot and baseline ranges. */
  const HandledTypes: seq<ArmourType> := [ArmourType.Head, Chest, ArmourType.Legs, Boots]

  /** The four handled armour types get four different slots, none of them a
      hand slot, whatever the slot was before; gauntlets and rings keep it. */
  lemma MappedSlotFacts(kind: ArmourType, other: ArmourType, current: EquipmentSlot, current2: EquipmentSlot)
    ensures kind in HandledTypes ==>
              MappedSlot(kind, current) == MappedSlot(kind, current2) &&
              MappedSlot(kind, current) !in [MainHand, OffHand]
    ensures kind in HandledTypes && other in HandledTypes && kind != other ==>
              MappedSlot(kind, current) != MappedSlot(other, current2)
    ensures kind !in HandledTypes ==> MappedSlot(kind, current) == current
  {
  }

  /** The half-open Random.Range bounds of the baseline physical and magical
      armour of each armour type that has them. */
  function BaselineRanges(kind: ArmourType): Option<(StatRange<int>, StatRange<int>)> {
    match kind
    case Head => Some((StatRange(5, 9), StatRange(3, 7)))
    case Chest => Some((StatRange(12, 19), StatRange(6, 11)))
    case Legs => Some((StatRange(8, 15), StatRange(4, 9)))
    case Boots => Some((StatRange(4, 9), StatRange(2, 6)))
    case _ => None
  }

  predicate BaselineRollsFit(kind: ArmourType, physicalRoll: int, magicalRoll: int) {
    BaselineRanges(kind).Some? ==>
      RangeRoll(physicalRoll, BaselineRanges(kind).value.0.min, BaselineRanges(kind).value.0.max) &&
      RangeRoll(magicalRoll, BaselineRanges(kind).value.1.min, BaselineRanges(kind).value.1.max)
  }

  /** The nine affix types armour generation knows how to roll. */
  predicate IsArmourAffix(t: AffixType) {
    match t
    case AddedStrength => true
    case AddedDexterity => true
    case AddedIntelligence => true
    case AddedHealth => true
    case AddedArmour => true
    case IncreasedFireResistance => true
    case IncreasedIceResistance => true
    case IncreasedLightningResistance => true
    case IncreasedPoisonResistance => true
    case _ => false
  }

  /** The tier stat whose range an armour affix's value is rolled in:
      strength, dexterity and intelligence for themselves, vitality for health
      and armour, magic for the four resistances. */
  function TierStat(t: AffixType, s: CorePlayerStats): int
    requires IsArmourAffix(t)
  {
    match t
    case AddedStrength => s.strength
    case AddedDexterity => s.dexterity
    case AddedIntelligence => s.intelligence
    case AddedHealth => s.vitality
    case AddedArmour => s.vitality
    case _ => s.magic
  }

  /** The value rolls, one per template affix, lie in the current tier's
      range for that affix's stat. */
  predicate ValueRollsFit(possible: seq<Affix>, rolls: seq<int>, tier: StatRange<CorePlayerStats>) {
    |rolls| == |possible| &&
    forall i :: 0 <= i < |possible| && IsArmourAffix(possible[i].affixType) ==>
      RangeRoll(rolls[i], TierStat(possible[i].affixType, tier.min), TierStat(possible[i].affixType, tier.max))
  }

  /** The candidate list: each template affix of a handled type, in template
      order, with its rolled value. */
  function Candidates(possible: seq<Affix>, rolls: seq<int>): seq<Affix>
    requires |rolls| == |possible|
  {
    if |possible| == 0 then []
    else
      var n := |possible| - 1;
      var before := Candidates(possible[..n], rolls[..n]);
      if IsArmourAffix(possible[n].affixType) then before + [Affix(possible[n].affixType, rolls[n])] else before
  }

  /** How many template affixes are of a handled type. */
  function HandledCount(possible: seq<Affix>): nat {
    if |possible| == 0 then 0
    else HandledCount(possible[..|possible| - 1]) + (if IsArmourAffix(possible[|possible| - 1].affixType) then 1 else 0)
  }

  /** There is one candidate per handled template affix; each is of a
      handled type that the template offers, and its value lies in the tier
      range of the stat that type maps to. */
  lemma {:induction false} CandidatesFit(possible: seq<Affix>, rolls: seq<int>, tier: StatRange<CorePlayerStats>)
    requires ValueRollsFit(possible, rolls, tier)
    ensures |Candidates(possible, rolls)| == HandledCount(possible)
    ensures forall c :: c in Candidates(possible, rolls) ==>
              IsArmourAffix(c.affixType) &&
              (exists i :: 0 <= i < |possible| && possible[i].affixType == c.affixType) &&
              RangeRoll(c.value, TierStat(c.affixType, tier.min), TierStat(c.affixType, tier.max))
  {
    if |possible| > 0 {
      var n := |possible| - 1;
      assert ValueRollsFit(possible[..n], rolls[..n], tier) by {
        forall i | 0 <= i < n && IsArmourAffix(possible[..n][i].affixType)
          ensures RangeRoll(rolls[..n][i], TierStat(possible[..n][i].affixType, tier.min),
                            TierStat(possible[..n][i].affixType, tier.max))
        {
          assert possible[..n][i] == possible[i] && rolls[..n][i] == rolls[i];
        }
      }
      CandidatesFit(possible[..n], rolls[..n], tier);
      forall c | c in Candidates(possible[..n], rolls[..n])
        ensures exists i :: 0 <= i < |possible| && possible[i].affixType == c.affixType
      {
        var i :| 0 <= i < n && possible[..n][i].affixType == c.affixType;
        assert possible[i] == possible[..n][i];
      }
    }
  }

  /** The first loop of GenerateAffixes: each template affix of a handled
      type is copied with its rolled value (`valueRolls[i]`, the
      Random.Range over the tier stat of that type); other types are
      skipped. */
  method CollectCandidates(possibleAffixes: seq<Affix>, valueRolls: seq<int>) returns (candidates: seq<Affix>)
    requires |valueRolls| == |possibleAffixes|
    ensures candidates == Candidates(possibleAffixes, valueRolls)
  {
    candidates := [];
    var i := 0;
    while i < |possibleAffixes|
      invariant 0 <= i <= |possibleAffixes|
      invariant candidates == Candidates(possibleAffixes[..i], valueRolls[..i])
    {
      var affix := possibleAffixes[i];
      if IsArmourAffix(affix.affixType) {
        affix := affix.(value := valueRolls[i]);
        candidates := candidates + [affix];
      }
      assert possibleAffixes[..i + 1][..i] == possibleAffixes[..i];
      assert valueRolls[..i + 1][..i] == valueRolls[..i];
      i := i + 1;
    }
    assert possibleAffixes[..i] == possibleAffixes && valueRolls[..i] == valueRolls;
  }

  /** `list.RemoveAt(k)`. */
  function RemoveAt(s: seq<Affix>, k: nat): seq<Affix>
    requires k < |s|
  {
    s[..k] + s[k + 1..]
  }

  lemma RemoveAtMultiset(s: seq<Affix>, k: nat)
    requires k < |s|
    ensures multiset(RemoveAt(s, k)) == multiset(s) - multiset{s[k]}
    ensures |RemoveAt(s, k)| == |s| - 1
  {
    assert s == s[..k] + [s[k]] + s[k + 1..];
  }

  /** Putting back a removed element keeps a sub-multiset of the rest within
      the whole. */
  lemma ConsWithin(picks: seq<Affix>, x: Affix, tail: seq<Affix>, rest: seq<Affix>, whole: seq<Affix>)
    requires picks == [x] + tail
    requires multiset(tail) <= multiset(rest)
    requires x in whole && multiset(rest) == multiset(whole) - multiset{x}
    ensures multiset(picks) <= multiset(whole)
  {
    assert multiset([x] + tail) == multiset{x} + multiset(tail);
  }

  /** The index rolls of the picking loop: the first lies in [0, n), the
      size of the candidate list, and the rest fit the list one shorter, so
      roll i lies in [0, n - i). */
  predicate PickRollsFit(rolls: seq<int>, n: nat)
    decreases n
  {
    |rolls| >= n && (n > 0 ==> 0 <= rolls[0] < n && PickRollsFit(rolls[1..], n - 1))
  }

  /** The affixes the picking loop takes: up to `count` of them, each removed
      from the candidate list once taken. */
  function Picks(cands: seq<Affix>, rolls: seq<int>, count: int): seq<Affix>
    requires PickRollsFit(rolls, |cands|)
    decreases |cands|
  {
    if count <= 0 || |cands| == 0 then []
    else
      var k := rolls[0];
      [cands[k]] + Picks(RemoveAt(cands, k), rolls[1..], count - 1)
  }

  /** The loop takes min(count, |cands|) affixes, none for a count below
      one. */
  lemma {:induction false} PicksLength(cands: seq<Affix>, rolls: seq<int>, count: int)
    requires PickRollsFit(rolls, |cands|)
    ensures |Picks(cands, rolls, count)| == if count <= 0 then 0 else if count < |cands| then count else |cands|
    decreases |cands|
  {
    if count > 0 && |cands| > 0 {
      PicksLength(RemoveAt(cands, rolls[0]), rolls[1..], count - 1);
    }
  }

  /** The loop never takes a candidate more often than the list holds it:
      the picks are a sub-multiset of the candidates. */
  lemma {:induction false} PicksFromCandidates(cands: seq<Affix>, rolls: seq<int>, count: int)
    requires PickRollsFit(rolls, |cands|)
    ensures multiset(Picks(cands, rolls, count)) <= multiset(cands)
    decreases |cands|
  {
    if count > 0 && |cands| > 0 {
      var k := rolls[0];
      var rest := RemoveAt(cands, k);
      RemoveAtMultiset(cands, k);
      PicksFromCandidates(rest, rolls[1..], count - 1);
      ConsWithin(Picks(cands, rolls, count), cands[k], Picks(rest, rolls[1..], count - 1), rest, cands);
    }
  }

  /** Every affix GenerateAffixes appends is one of the nine handled types
      and carries a value in the tier range of its stat; there are exactly
      min(count, number of candidates) of them. */
  lemma GeneratedAffixesFit(possible: seq<Affix>, valueRolls: seq<int>, tier: StatRange<CorePlayerStats>,
                            pickRolls: seq<int>, count: int)
    requires ValueRollsFit(possible, valueRolls, tier)
    requires PickRollsFit(pickRolls, |Candidates(possible, valueRolls)|)
    ensures var picks := Picks(Candidates(possible, valueRolls), pickRolls, count);
      && |picks| == (if count <= 0 then 0 else if count < HandledCount(possible) then count else HandledCount(possible))
      && forall a :: a in picks ==>
           IsArmourAffix(a.affixType) &&
           RangeRoll(a.value, TierStat(a.affixType, tier.min), TierStat(a.affixType, tier.max))
  {
    var cands := Candidates(possible, valueRolls);
    CandidatesFit(possible, valueRolls, tier);
    PicksLength(cands, pickRolls, count);
    PicksFromCandidates(cands, pickRolls, count);
    var picks := Picks(cands, pickRolls, count);
    forall a | a in picks
      ensures a in cands
    {
      assert a in multiset(picks);
    }
  }

  /** All percentages of a resistance table lie in [0, 100]. */
  predicate RowsWithin(rows: seq<ElementalResistance>) {
    forall j :: 0 <= j < |rows| ==> 0.0 <= rows[j].resistancePercentage <= 100.0
  }

  /** The table after AddResistance(t, amount). */
  function AddToFirst(rows: seq<ElementalResistance>, t: ElementalDamageType, amount: real): seq<ElementalResistance> {
    match FirstIndexOf(rows, t)
    case None => rows
    case Some(i) => rows[i := rows[i].(resistancePercentage := Clamp(rows[i].resistancePercentage + amount, 0.0, 100.0))]
  }

  /** The table after SetResistance(t, amount). */
  function SetFirst(rows: seq<ElementalResistance>, t: ElementalDamageType, amount: real): seq<ElementalResistance> {
    match FirstIndexOf(rows, t)
    case None => rows
    case Some(i) => rows[i := rows[i].(resistancePercentage := Clamp(amount, 0.0, 100.0))]
  }

  /** Only the first row of the type can change: the table keeps its length,
      its order of types and its percentages in [0, 100]; looking the type up
      afterwards finds the clamped sum; a type without a row leaves the table
      as it was. */
  lemma AddToFirstFacts(rows: seq<ElementalResistance>, t: ElementalDamageType, amount: real)
    ensures var r := AddToFirst(rows, t, amount);
      && |r| == |rows|
      && (forall j :: 0 <= j < |rows| ==> r[j].damageType == rows[j].damageType)
      && (forall j :: 0 <= j < |rows| && r[j] != rows[j] ==>
            rows[j].damageType == t && forall k :: 0 <= k < j ==> rows[k].damageType != t)
      && (RowsWithin(rows) ==> RowsWithin(r))
      && ((exists j :: 0 <= j < |rows| && rows[j].damageType == t) ==>
            FindResistance(r, t).resistancePercentage ==
            Clamp(FindResistance(rows, t).resistancePercentage + amount, 0.0, 100.0))
      && ((forall j :: 0 <= j < |rows| ==> rows[j].damageType != t) ==> r == rows)
  {
    var r := AddToFirst(rows, t, amount);
    match FirstIndexOf(rows, t)
    case None =>
    case Some(i) =>
      FirstIndexOfSameTypes(r, rows, t);
  }

  /** SetResistance: the same frame as AddResistance, but the row's new
      percentage is the clamped amount, whatever it was before. */
  lemma SetFirstFacts(rows: seq<ElementalResistance>, t: ElementalDamageType, amount: real)
    ensures var r := SetFirst(rows, t, amount);
      && |r| == |rows|
      && (forall j :: 0 <= j < |rows| ==> r[j].damageType == rows[j].damageType)
      && (forall j :: 0 <= j < |rows| && r[j] != rows[j] ==>
            rows[j].damageType == t && forall k :: 0 <= k < j ==> rows[k].damageType != t)
      && (RowsWithin(rows) ==> RowsWithin(r))
      && ((exists j :: 0 <= j < |rows| && rows[j].damageType == t) ==>
            FindResistance(r, t).resistancePercentage == Clamp(amount, 0.0, 100.0))
      && ((forall j :: 0 <= j < |rows| ==> rows[j].damageType != t) ==> r == rows)
  {
    var r := SetFirst(rows, t, amount);
    match FirstIndexOf(rows, t)
    case None =>
    case Some(i) =>
      FirstIndexOfSameTypes(r, rows, t);
  }

  /** The fields the affix fold changes. */
  datatype ArmourValues = ArmourValues(
    physicalArmour: int,
    magicalArmour: int,
    statBonuses: CorePlayerStats,
    resistances: seq<ElementalResistance>)

  /** `(int)(currentItemTier * affix.value * itemLevelFactor)`, the armour
      an AddedArmour affix adds. */
  function FlatArmour(currentItemTier: int, value: int, itemLevelFactor: real): int {
    Trunc((currentItemTier * value) as real * itemLevelFactor)
  }

  /** The resistance type an IncreasedXResistance affix raises. */
  function ResistanceOf(t: AffixType): Option<ElementalDamageType> {
    match t
    case IncreasedFireResistance => Some(Fire)
    case IncreasedIceResistance => Some(Ice)
    case IncreasedLightningResistance => Some(Lightning)
    case IncreasedPoisonResistance => Some(Poison)
    case _ => None
  }

  /** What one iteration of ApplyAffixes does. An AddedArmour affix adds the
      truncated `tier * value * itemLevelFactor` to physical armour and 0.6
      of that, truncated, to magical armour. */
  function AffixEffect(v: ArmourValues, a: Affix, currentItemTier: int, itemLevelFactor: real): ArmourValues {
    match a.affixType
    case AddedStrength => v.(statBonuses := v.statBonuses.(strength := v.statBonuses.strength + a.value))
    case AddedDexterity => v.(statBonuses := v.statBonuses.(dexterity := v.statBonuses.dexterity + a.value))
    case AddedIntelligence => v.(statBonuses := v.statBonuses.(intelligence := v.statBonuses.intelligence + a.value))
    case AddedHealth => v.(statBonuses := v.statBonuses.(vitality := v.statBonuses.vitality + a.value))
    case AddedArmour =>
      var flatArmour := FlatArmour(currentItemTier, a.value, itemLevelFactor);
      v.(physicalArmour := v.physicalArmour + flatArmour,
         magicalArmour := v.magicalArmour + Trunc(flatArmour as real * 0.6))
    case IncreasedFireResistance => v.(resistances := AddToFirst(v.resistances, Fire, a.value as real))
    case IncreasedIceResistance => v.(resistances := AddToFirst(v.resistances, Ice, a.value as real))
    case IncreasedLightningResistance => v.(resistances := AddToFirst(v.resistances, Lightning, a.value as real))
    case IncreasedPoisonResistance => v.(resistances := AddToFirst(v.resistances, Poison, a.value as real))
    case _ => v
  }

  /** ApplyAffixes over a whole affix list, in list order. */
  function ApplyAffixSeq(v: ArmourValues, affixes: seq<Affix>, currentItemTier: int, itemLevelFactor: real): ArmourValues {
    if |affixes| == 0 then v
    else AffixEffect(ApplyAffixSeq(v, affixes[..|affixes| - 1], currentItemTier, itemLevelFactor),
                     affixes[|affixes| - 1], currentItemTier, itemLevelFactor)
  }

  /** One affix moves at most one of the four affix-driven stat bonuses, by
      its value; it keeps magic, luck and the resistance rows with their
      order and bounds, and only an AddedArmour affix changes the armour. */
  lemma AffixEffectStep(v: ArmourValues, a: Affix, currentItemTier: int, itemLevelFactor: real)
    ensures var r := AffixEffect(v, a, currentItemTier, itemLevelFactor);
      && r.statBonuses.strength == v.statBonuses.strength + (if a.affixType == AddedStrength then a.value else 0)
      && r.statBonuses.dexterity == v.statBonuses.dexterity + (if a.affixType == AddedDexterity then a.value else 0)
      && r.statBonuses.intelligence == v.statBonuses.intelligence + (if a.affixType == AddedIntelligence then a.value else 0)
      && r.statBonuses.vitality == v.statBonuses.vitality + (if a.affixType == AddedHealth then a.value else 0)
      && r.statBonuses.magic == v.statBonuses.magic
      && r.statBonuses.luck == v.statBonuses.luck
      && |r.resistances| == |v.resistances|
      && (forall j :: 0 <= j < |v.resistances| ==> r.resistances[j].damageType == v.resistances[j].damageType)
      && (RowsWithin(v.resistances) ==> RowsWithin(r.resistances))
      && (a.affixType != AddedArmour ==> r.physicalArmour == v.physicalArmour && r.magicalArmour == v.magicalArmour)
  {
    match ResistanceOf(a.affixType)
    case Some(t) => AddToFirstFacts(v.resistances, t, a.value as real);
    case None =>
  }

  /** Applying the affixes raises the strength, dexterity, intelligence and
      vitality bonuses by the total of their affixes (health affixes count
      for vitality), never touches magic or luck, keeps the resistance
      table's rows and their order, and keeps every percentage in [0, 100].
      Without an AddedArmour affix the armour values stay as they were. */
  lemma {:induction false} ApplyAffixTotals(v: ArmourValues, affixes: seq<Affix>, currentItemTier: int, itemLevelFactor: real)
    ensures var r := ApplyAffixSeq(v, affixes, currentItemTier, itemLevelFactor);
      && r.statBonuses.strength == v.statBonuses.strength + AffixTotal(affixes, AddedStrength)
      && r.statBonuses.dexterity == v.statBonuses.dexterity + AffixTotal(affixes, AddedDexterity)
      && r.statBonuses.intelligence == v.statBonuses.intelligence + AffixTotal(affixes, AddedIntelligence)
      && r.statBonuses.vitality == v.statBonuses.vitality + AffixTotal(affixes, AddedHealth)
      && r.statBonuses.magic == v.statBonuses.magic
      && r.statBonuses.luck == v.statBonuses.luck
      && |r.resistances| == |v.resistances|
      && (forall j :: 0 <= j < |v.resistances| ==> r.resistances[j].damageType == v.resistances[j].damageType)
      && (RowsWithin(v.resistances) ==> RowsWithin(r.resistances))
      && ((forall j :: 0 <= j < |affixes| ==> affixes[j].affixType != AddedArmour) ==>
            r.physicalArmour == v.physicalArmour && r.magicalArmour == v.magicalArmour)
  {
    if |affixes| > 0 {
      var n := |affixes| - 1;
      ApplyAffixTotals(v, affixes[..n], currentItemTier, itemLevelFactor);
      var before := ApplyAffixSeq(v, affixes[..n], currentItemTier, itemLevelFactor);
      AffixEffectStep(before, affixes[n], currentItemTier, itemLevelFactor);
      if (forall j :: 0 <= j < |affixes| ==> affixes[j].affixType != AddedArmour) {
        assert forall j :: 0 <= j < n ==> affixes[..n][j] == affixes[j];
      }
    }
  }

  /** The core stat a bonus line names ("Strength: +v" and so on). */
  datatype CoreStat = StrengthBonus | DexterityBonus | IntelligenceBonus | VitalityBonus | MagicBonus | LuckBonus

  /** One line of the armour tooltip. */
  datatype DescriptionLine =
    | PhysicalArmourLine(physicalArmour: int)
    | MagicalArmourLine(magicalArmour: int)
    | BonusLine(stat: CoreStat, bonus: int)
    | ResistanceLine(damageType: ElementalDamageType, percentage: real)
    | AffixSeparator
    | AddsLine(value: int, target: string)
    | IncreasedLine(target: string, value: int)

  /** The six affix types the tooltip prints as "Adds v to X"; their enum
      names start with "Added", the other six with "Increased". */
  predicate IsAddsAffix(t: AffixType) {
    t.AddedStrength? || t.AddedIntelligence? || t.AddedDexterity? ||
    t.AddedHealth? || t.AddedElementalDamageToWeapon? || t.AddedArmour?
  }

  /** The part of the enum member's name after "Added" or "Increased". */
  function AffixStem(t: AffixType): string {
    match t
    case AddedStrength => "Strength"
    case AddedIntelligence => "Intelligence"
    case AddedDexterity => "Dexterity"
    case AddedHealth => "Health"
    case IncreasedPhysicalDamage => "PhysicalDamage"
    case IncreasedCritChance => "CritChance"
    case AddedElementalDamageToWeapon => "ElementalDamageToWeapon"
    case AddedArmour => "Armour"
    case IncreasedFireResistance => "FireResistance"
    case IncreasedIceResistance => "IceResistance"
    case IncreasedLightningResistance => "LightningResistance"
    case IncreasedPoisonResistance => "PoisonResistance"
  }

  /** The enum member's name, as `ToString()` spells it. */
  function AffixTypeName(t: AffixType): string {
    (if IsAddsAffix(t) then "Added" else "Increased") + AffixStem(t)
  }

  /** The tooltip line of one affix: "Adds v to X" with the first five
      letters of the type's name removed, or "Increased X by v%" with the
      first nine removed. */
  function AffixLine(a: Affix): DescriptionLine {
    var name := AffixTypeName(a.affixType);
    if IsAddsAffix(a.affixType) then AddsLine(a.value, name[5..])
    else IncreasedLine(name[9..], a.value)
  }

  /** Every affix name is long enough for its prefix to be cut off. */
  lemma AffixNameLength(t: AffixType)
    ensures |AffixTypeName(t)| >= if IsAddsAffix(t) then 5 else 9
  {
  }

  /** Removing five or nine letters strips exactly the "Added" or "Increased"
      prefix, so the label never loses part of the stat's name. */
  lemma AffixLineStripsPrefix(a: Affix)
    ensures AffixLine(a).AddsLine? ==> "Added" + AffixLine(a).target == AffixTypeName(a.affixType)
    ensures AffixLine(a).IncreasedLine? ==> "Increased" + AffixLine(a).target == AffixTypeName(a.affixType)
    ensures AffixLine(a).AddsLine? || AffixLine(a).IncreasedLine?
  {
    var name := AffixTypeName(a.affixType);
    if IsAddsAffix(a.affixType) {
      assert name[5..] == AffixStem(a.affixType);
    } else {
      assert name[9..] == AffixStem(a.affixType);
    }
  }

  /** The line of one core stat, present only when its bonus is positive. */
  function BonusIf(stat: CoreStat, bonus: int): seq<DescriptionLine> {
    if bonus > 0 then [BonusLine(stat, bonus)] else []
  }

  /** The bonus lines: one per core stat whose bonus is positive, in the
      order strength, dexterity, intelligence, vitality, magic, luck. */
  function BonusLines(s: CorePlayerStats): seq<DescriptionLine> {
    BonusIf(StrengthBonus, s.strength) + BonusIf(DexterityBonus, s.dexterity) +
    BonusIf(IntelligenceBonus, s.intelligence) + BonusIf(VitalityBonus, s.vitality) +
    BonusIf(MagicBonus, s.magic) + BonusIf(LuckBonus, s.luck)
  }

  /** The bonus of the given core stat. */
  function StatValue(s: CorePlayerStats, stat: CoreStat): int {
    match stat
    case StrengthBonus => s.strength
    case DexterityBonus => s.dexterity
    case IntelligenceBonus => s.intelligence
    case VitalityBonus => s.vitality
    case MagicBonus => s.magic
    case LuckBonus => s.luck
  }

  lemma BonusIfMember(stat: CoreStat, bonus: int, line: DescriptionLine)
    ensures line in BonusIf(stat, bonus) <==> bonus > 0 && line == BonusLine(stat, bonus)
  {
  }

  /** The bonus lines are exactly one line per core stat with a positive
      bonus, each carrying that stat's bonus. */
  lemma BonusLinesExact(s: CorePlayerStats)
    ensures forall line :: line in BonusLines(s) <==>
              line.BonusLine? && line.bonus > 0 && line.bonus == StatValue(s, line.stat)
    ensures |BonusLines(s)| <= 6
  {
    forall line
      ensures line in BonusLines(s) <==> line.BonusLine? && line.bonus > 0 && line.bonus == StatValue(s, line.stat)
    {
      BonusIfMember(StrengthBonus, s.strength, line);
      BonusIfMember(DexterityBonus, s.dexterity, line);
      BonusIfMember(IntelligenceBonus, s.intelligence, line);
      BonusIfMember(VitalityBonus, s.vitality, line);
      BonusIfMember(MagicBonus, s.magic, line);
      BonusIfMember(LuckBonus, s.luck, line);
      assert line in BonusLines(s) <==>
        line in BonusIf(StrengthBonus, s.strength) || line in BonusIf(DexterityBonus, s.dexterity) ||
        line in BonusIf(IntelligenceBonus, s.intelligence) || line in BonusIf(VitalityBonus, s.vitality) ||
        line in BonusIf(MagicBonus, s.magic) || line in BonusIf(LuckBonus, s.luck);
    }
  }

  /** The resistance lines: one per row with a positive percentage. */
  function ResistanceLines(rows: seq<ElementalResistance>): seq<DescriptionLine> {
    if |rows| == 0 then []
    else
      var last := rows[|rows| - 1];
      ResistanceLines(rows[..|rows| - 1]) +
      (if last.resistancePercentage <= 0.0 then [] else [ResistanceLine(last.damageType, last.resistancePercentage)])
  }

  function AffixLines(affixes: seq<Affix>): seq<DescriptionLine> {
    if |affixes| == 0 then []
    else AffixLines(affixes[..|affixes| - 1]) + [AffixLine(affixes[|affixes| - 1])]
  }

  /** The whole tooltip. */
  function Description(physicalArmour: int, magicalArmour: int, statBonuses: CorePlayerStats,
                       rows: seq<ElementalResistance>, affixes: Option<seq<Affix>>): seq<DescriptionLine> {
    [PhysicalArmourLine(physicalArmour), MagicalArmourLine(magicalArmour)] +
    BonusLines(statBonuses) + ResistanceLines(rows) + AffixPart(affixes)
  }

  lemma {:induction false} ResistanceLinesExact(rows: seq<ElementalResistance>)
    ensures forall line :: line in ResistanceLines(rows) <==>
              line.ResistanceLine? && line.percentage > 0.0 &&
              ElementalResistance(line.damageType, line.percentage) in rows
    ensures forall line :: line in ResistanceLines(rows) ==> line.ResistanceLine?
  {
    if |rows| > 0 {
      var n := |rows| - 1;
      ResistanceLinesExact(rows[..n]);
      assert rows == rows[..n] + [rows[n]];
    }
  }

  lemma {:induction false} AffixLinesCount(affixes: seq<Affix>)
    ensures |AffixLines(affixes)| == |affixes|
    ensures forall line :: line in AffixLines(affixes) ==> line.AddsLine? || line.IncreasedLine?
  {
    if |affixes| > 0 {
      AffixLinesCount(affixes[..|affixes| - 1]);
      AffixLineStripsPrefix(affixes[|affixes| - 1]);
    }
  }

  /** The affix part of the tooltip: a separator followed by one line per
      affix, or nothing when the list is null or empty. */
  function AffixPart(affixes: Option<seq<Affix>>): seq<DescriptionLine> {
    if affixes.Some? && |affixes.value| > 0 then [AffixSeparator] + AffixLines(affixes.value) else []
  }

  lemma AffixPartFacts(affixes: Option<seq<Affix>>)
    ensures forall line :: line in AffixPart(affixes) ==> line.AffixSeparator? || line.AddsLine? || line.IncreasedLine?
    ensures AffixSeparator in AffixPart(affixes) <==> affixes.Some? && |affixes.value| > 0
    ensures |AffixPart(affixes)| == if affixes.Some? && |affixes.value| > 0 then 1 + |affixes.value| else 0
  {
    if affixes.Some? {
      AffixLinesCount(affixes.value);
    }
  }

  /** A line is in the tooltip exactly when it is in one of its four parts. */
  lemma DescriptionParts(physicalArmour: int, magicalArmour: int, statBonuses: CorePlayerStats,
                         rows: seq<ElementalResistance>, affixes: Option<seq<Affix>>)
    ensures var d := Description(physicalArmour, magicalArmour, statBonuses, rows, affixes);
      && d == [PhysicalArmourLine(physicalArmour), MagicalArmourLine(magicalArmour)] +
              BonusLines(statBonuses) + ResistanceLines(rows) + AffixPart(affixes)
      && forall line :: line in d <==>
           line == PhysicalArmourLine(physicalArmour) || line == MagicalArmourLine(magicalArmour) ||
           line in BonusLines(statBonuses) || line in ResistanceLines(rows) || line in AffixPart(affixes)
  {
  }

  /** The tooltip starts with the physical and then the magical armour line;
      a stat bonus line appears exactly for the positive bonuses; a
      resistance line appears exactly for the rows with a positive
      percentage; the separator appears exactly when there are affixes, and
      then it is followed by one line per affix. */
  lemma DescriptionFacts(physicalArmour: int, magicalArmour: int, statBonuses: CorePlayerStats,
                         rows: seq<ElementalResistance>, affixes: Option<seq<Affix>>)
    ensures var d := Description(physicalArmour, magicalArmour, statBonuses, rows, affixes);
      && d[0] == PhysicalArmourLine(physicalArmour)
      && d[1] == MagicalArmourLine(magicalArmour)
      && (forall line: DescriptionLine :: line.BonusLine? ==> (line in d <==> line in BonusLines(statBonuses)))
      && (forall line: DescriptionLine :: line.ResistanceLine? ==>
            (line in d <==> line.percentage > 0.0 && ElementalResistance(line.damageType, line.percentage) in rows))
      && (AffixSeparator in d <==> affixes.Some? && |affixes.value| > 0)
      && |d| == 2 + |BonusLines(statBonuses)| + |ResistanceLines(rows)| +
                (if affixes.Some? && |affixes.value| > 0 then 1 + |affixes.value| else 0)
  {
    DescriptionParts(physicalArmour, magicalArmour, statBonuses, rows, affixes);
    BonusLinesExact(statBonuses);
    ResistanceLinesExact(rows);
    AffixPartFacts(affixes);
  }

  /** A positive bonus is always shown and a zero or negative one never is,
      for each of the six core stats. */
  lemma DescriptionShowsPositiveBonuses(physicalArmour: int, magicalArmour: int, statBonuses: CorePlayerStats,
                                        rows: seq<ElementalResistance>, affixes: Option<seq<Affix>>)
    ensures var d := Description(physicalArmour, magicalArmour, statBonuses, rows, affixes);
      && (BonusLine(StrengthBonus, statBonuses.strength) in d <==> statBonuses.strength > 0)
      && (BonusLine(DexterityBonus, statBonuses.dexterity) in d <==> statBonuses.dexterity > 0)
      && (BonusLine(IntelligenceBonus, statBonuses.intelligence) in d <==> statBonuses.intelligence > 0)
      && (BonusLine(VitalityBonus, statBonuses.vitality) in d <==> statBonuses.vitality > 0)
      && (BonusLine(MagicBonus, statBonuses.magic) in d <==> statBonuses.magic > 0)
      && (BonusLine(LuckBonus, statBonuses.luck) in d <==> statBonuses.luck > 0)
      && (forall line :: line in d && line.BonusLine? ==> line.bonus > 0)
  {
    DescriptionFacts(physicalArmour, magicalArmour, statBonuses, rows, affixes);
    BonusLinesExact(statBonuses);
  }

  class ArmourStats {
    /** The BaseItemInfo part of the piece: name, rarity, level, slot. */
    const info: BaseItemInfo
    var physicalArmour: int
    var magicalArmour: int
    var elementalResistances: seq<ElementalResistance>
    var statBonuses: CorePlayerStats
    var armourType: ArmourType
    var generatedAffixes: Option<seq<Affix>>

    /** A fresh piece: all numbers 0, no resistance rows, no affix list. */
    constructor ()
      ensures physicalArmour == 0 && magicalArmour == 0 && elementalResistances == []
      ensures statBonuses == ZeroStats && armourType == ArmourType.Head && generatedAffixes == None
    {
      info := new BaseItemInfo();
      physicalArmour := 0;
      magicalArmour := 0;
      elementalResistances := [];
      statBonuses := ZeroStats;
      armourType := ArmourType.Head;
      generatedAffixes := None;
    }

    function Values(): ArmourValues
      reads this
    {
      ArmourValues(physicalArmour, magicalArmour, statBonuses, elementalResistances)
    }

    /** InitializeElementalResistances: the table is cleared and refilled
        with one row per element, in enum order, each at 0%. */
    method InitializeElementalResistances()
      modifies this
      ensures elementalResistances == ZeroResistances(AllElements)
      ensures physicalArmour == old(physicalArmour) && magicalArmour == old(magicalArmour)
      ensures statBonuses == old(statBonuses) && armourType == old(armourType)
      ensures generatedAffixes == old(generatedAffixes)
    {
      elementalResistances := [];
      var i := 0;
      while i < |AllElements|
        invariant 0 <= i <= |AllElements|
        invariant elementalResistances == ZeroResistances(AllElements[..i])
        invariant physicalArmour == old(physicalArmour) && magicalArmour == old(magicalArmour)
        invariant statBonuses == old(statBonuses) && armourType == old(armourType)
        invariant generatedAffixes == old(generatedAffixes)
      {
        elementalResistances := elementalResistances + [ElementalResistance(AllElements[i], 0.0)];
        assert AllElements[..i + 1][..i] == AllElements[..i];
        i := i + 1;
      }
      assert AllElements[..i] == AllElements;
    }

    /** RollBaselineByArmourType: the piece's own armour type picks the
        ranges; gauntlets and rings roll nothing. */
    method RollBaselineByArmourType(physicalRoll: int, magicalRoll: int)
      requires BaselineRollsFit(armourType, physicalRoll, magicalRoll)
      modifies this
      ensures armourType == ArmourType.Head ==> 5 <= physicalArmour <= 8 && 3 <= magicalArmour <= 6
      ensures armourType == Chest ==> 12 <= physicalArmour <= 18 && 6 <= magicalArmour <= 10
      ensures armourType == ArmourType.Legs ==> 8 <= physicalArmour <= 14 && 4 <= magicalArmour <= 8
      ensures armourType == Boots ==> 4 <= physicalArmour <= 8 && 2 <= magicalArmour <= 5
      ensures BaselineRanges(armourType).Some? ==> physicalArmour == physicalRoll && magicalArmour == magicalRoll
      ensures BaselineRanges(armourType).None? ==>
                physicalArmour == old(physicalArmour) && magicalArmour == old(magicalArmour)
      ensures statBonuses == old(statBonuses) && elementalResistances == old(elementalResistances)
      ensures armourType == old(armourType) && generatedAffixes == old(generatedAffixes)
    {
      match armourType {
        case Head =>
          physicalArmour := physicalRoll;
          magicalArmour := magicalRoll;
        case Chest =>
          physicalArmour := physicalRoll;
          magicalArmour := magicalRoll;
        case Legs =>
          physicalArmour := physicalRoll;
          magicalArmour := magicalRoll;
        case Boots =>
          physicalArmour := physicalRoll;
          magicalArmour := magicalRoll;
        case Gauntlets =>
        case Ring =>
      }
    }

    /** ScaleArmourValues: both armour values are scaled by
        `1 + level * itemLevelFactor` and by the rarity multiplier, then
        truncated. */
    method ScaleArmourValues(rarityMult: real, itemLevelFactor: real)
      modifies this
      ensures physicalArmour == ScaledArmour(old(physicalArmour), info.equipmentLevel, itemLevelFactor, rarityMult)
      ensures magicalArmour == ScaledArmour(old(magicalArmour), info.equipmentLevel, itemLevelFactor, rarityMult)
      ensures statBonuses == old(statBonuses) && elementalResistances == old(elementalResistances)
      ensures armourType == old(armourType) && generatedAffixes == old(generatedAffixes)
    {
      physicalArmour := ScaledArmour(physicalArmour, info.equipmentLevel, itemLevelFactor, rarityMult);
      magicalArmour := ScaledArmour(magicalArmour, info.equipmentLevel, itemLevelFactor, rarityMult);
    }

    /** GenerateAffixes: builds the candidate list from the template's
        affixes with their rolled values, then picks `countRoll` of them
        (Random.Range(min, max)) without replacement, appending each. */
    method GenerateAffixes(rarityAffixBonusRangeMin: int, rarityAffixBonusRangeMax: int,
                           possibleAffixes: seq<Affix>, tierStats: StatRange<CorePlayerStats>,
                           countRoll: int, valueRolls: seq<int>, pickRolls: seq<int>)
      requires generatedAffixes.Some?
      requires RangeRoll(countRoll, rarityAffixBonusRangeMin, rarityAffixBonusRangeMax)
      requires ValueRollsFit(possibleAffixes, valueRolls, tierStats)
      requires PickRollsFit(pickRolls, |Candidates(possibleAffixes, valueRolls)|)
      modifies this
      ensures generatedAffixes ==
                Some(old(generatedAffixes.value) + Picks(Candidates(possibleAffixes, valueRolls), pickRolls, countRoll))
      ensures Values() == old(Values()) && armourType == old(armourType)
    {
      var randomNumberOfAffixes := countRoll;
      var tempListOfPossibleAffixes := CollectCandidates(possibleAffixes, valueRolls);

      ghost var cands := tempListOfPossibleAffixes;
      ghost var before := generatedAffixes.value;
      assert pickRolls[0..] == pickRolls;
      var j := 0;
      while j < randomNumberOfAffixes && |tempListOfPossibleAffixes| > 0
        invariant 0 <= j <= |cands|
        invariant |tempListOfPossibleAffixes| == |cands| - j
        invariant PickRollsFit(pickRolls[j..], |tempListOfPossibleAffixes|)
        invariant generatedAffixes.Some?
        invariant generatedAffixes.value + Picks(tempListOfPossibleAffixes, pickRolls[j..], randomNumberOfAffixes - j) ==
                  before + Picks(cands, pickRolls, randomNumberOfAffixes)
        invariant Values() == old(Values()) && armourType == old(armourType)
      {
        var randomAffixIndex := pickRolls[j];
        assert pickRolls[j..][0] == randomAffixIndex;
        assert pickRolls[j..][1..] == pickRolls[j + 1..];
        generatedAffixes := Some(generatedAffixes.value + [tempListOfPossibleAffixes[randomAffixIndex]]);
        tempListOfPossibleAffixes := RemoveAt(tempListOfPossibleAffixes, randomAffixIndex);
        j := j + 1;
      }
      assert Picks(tempListOfPossibleAffixes, pickRolls[j..], randomNumberOfAffixes - j) == [];
      assert generatedAffixes.value == before + Picks(cands, pickRolls, randomNumberOfAffixes);
      assert before == old(generatedAffixes.value);
    }

    /** AddResistance: the first row of the type gets the amount added and
        the result clamped to [0, 100]. */
    method AddResistance(damageType: ElementalDamageType, amount: real)
      modifies this
      ensures elementalResistances == AddToFirst(old(elementalResistances), damageType, amount)
      ensures physicalArmour == old(physicalArmour) && magicalArmour == old(magicalArmour)
      ensures statBonuses == old(statBonuses) && armourType == old(armourType)
      ensures generatedAffixes == old(generatedAffixes)
    {
      var i := 0;
      while i < |elementalResistances|
        invariant 0 <= i <= |elementalResistances|
        invariant elementalResistances == old(elementalResistances)
        invariant forall j :: 0 <= j < i ==> elementalResistances[j].damageType != damageType
      {
        if elementalResistances[i].damageType != damageType {
          i := i + 1;
          continue;
        }
        FirstIndexAt(elementalResistances, damageType, i);
        var res := elementalResistances[i];
        res := res.(resistancePercentage := Clamp(res.resistancePercentage + amount, 0.0, 100.0));
        elementalResistances := elementalResistances[i := res];
        return;
      }
    }

    /** SetResistance: the first row of the type gets the amount clamped to
        [0, 100]. */
    method SetResistance(damageType: ElementalDamageType, amount: real)
      modifies this
      ensures elementalResistances == SetFirst(old(elementalResistances), damageType, amount)
      ensures physicalArmour == old(physicalArmour) && magicalArmour == old(magicalArmour)
      ensures statBonuses == old(statBonuses) && armourType == old(armourType)
      ensures generatedAffixes == old(generatedAffixes)
    {
      var i := 0;
      while i < |elementalResistances|
        invariant 0 <= i <= |elementalResistances|
        invariant elementalResistances == old(elementalResistances)
        invariant forall j :: 0 <= j < i ==> elementalResistances[j].damageType != damageType
      {
        if elementalResistances[i].damageType != damageType {
          i := i + 1;
          continue;
        }
        FirstIndexAt(elementalResistances, damageType, i);
        var res := elementalResistances[i];
        res := res.(resistancePercentage := Clamp(amount, 0.0, 100.0));
        elementalResistances := elementalResistances[i := res];
        return;
      }
    }

    /** One iteration of ApplyAffixes' `foreach`: the `switch` on the
        affix type. */
    method ApplyAffix(affix: Affix, currentItemTier: int, itemLevelFactor: real)
      modifies this
      ensures Values() == AffixEffect(old(Values()), affix, currentItemTier, itemLevelFactor)
      ensures generatedAffixes == old(generatedAffixes) && armourType == old(armourType)
    {
      match affix.affixType {
        case AddedStrength =>
          statBonuses := statBonuses.(strength := statBonuses.strength + affix.value);
        case AddedDexterity =>
          statBonuses := statBonuses.(dexterity := statBonuses.dexterity + affix.value);
        case AddedIntelligence =>
          statBonuses := statBonuses.(intelligence := statBonuses.intelligence + affix.value);
        case AddedHealth =>
          statBonuses := statBonuses.(vitality := statBonuses.vitality + affix.value);
        case AddedArmour =>
          var flatArmour := FlatArmour(currentItemTier, affix.value, itemLevelFactor);
          physicalArmour := physicalArmour + flatArmour;
          magicalArmour := magicalArmour + Trunc(flatArmour as real * 0.6);
        case IncreasedFireResistance =>
          AddResistance(Fire, affix.value as real);
        case IncreasedIceResistance =>
          AddResistance(Ice, affix.value as real);
        case IncreasedLightningResistance =>
          AddResistance(Lightning, affix.value as real);
        case IncreasedPoisonResistance =>
          AddResistance(Poison, affix.value as real);
        case IncreasedPhysicalDamage =>
        case IncreasedCritChance =>
        case AddedElementalDamageToWeapon =>
      }
    }

    /** ApplyAffixes: folds every generated affix into the armour values;
        a null affix list changes nothing. */
    method ApplyAffixes(currentItemTier: int, itemLevelFactor: real)
      modifies this
      ensures generatedAffixes.None? ==> Values() == old(Values())
      ensures generatedAffixes.Some? ==>
                Values() == ApplyAffixSeq(old(Values()), generatedAffixes.value, currentItemTier, itemLevelFactor)
      ensures generatedAffixes == old(generatedAffixes) && armourType == old(armourType)
    {
      if generatedAffixes.None? {
        return;
      }
      var affixes := generatedAffixes.value;
      ghost var start := Values();
      var i := 0;
      while i < |affixes|
        invariant 0 <= i <= |affixes|
        invariant Values() == ApplyAffixSeq(start, affixes[..i], currentItemTier, itemLevelFactor)
        invariant generatedAffixes == old(generatedAffixes) && armourType == old(armourType)
      {
        ApplyAffix(affixes[i], currentItemTier, itemLevelFactor);
        assert affixes[..i + 1][..i] == affixes[..i];
        i := i + 1;
      }
      assert affixes[..i] == affixes;
    }

    /** GenerateBaseArmourStats: a template that is not an ArmourTemplate
        arrives as null and GenerateBaseItemInfo throws before anything is
        written. Otherwise the base info is rolled, the slot is mapped from
        the requested armour type, the resistance table is reset, the
        baseline is rolled by the piece's own armourType field (which this
        method never assigns), both armour values are scaled, a fresh affix
        list is generated when the rarity allows affixes, and the affixes
        are applied. */
    method GenerateBaseArmourStats(itemTemplate: ItemTemplate, typeOfArmourToGenerate: ArmourType,
                                   raritySettings: seq<ItemRaritySettings>, itemLevelFactor: real,
                                   currentItemTier: int, tierStats: StatRange<CorePlayerStats>,
                                   playerLevel: int, rarityRoll: int, levelRoll: int,
                                   physicalRoll: int, magicalRoll: int,
                                   countRoll: int, valueRolls: seq<int>, pickRolls: seq<int>)
      returns (outcome: Outcome)
      requires RangeRoll(rarityRoll, 0, 5)
      requires RangeRoll(levelRoll, playerLevel, playerLevel + rarityRoll)
      requires BaselineRollsFit(armourType, physicalRoll, magicalRoll)
      requires itemTemplate.definition.ArmourTemplate? ==>
                 AffixRollsFit(itemTemplate.definition.possibleAffixes,
                               FindRaritySettings(raritySettings, RarityFromOrdinal(rarityRoll)).rarityAffixBonusRange,
                               tierStats, countRoll, valueRolls, pickRolls)
      modifies this, info
      ensures !itemTemplate.definition.ArmourTemplate? ==>
                outcome == Threw(NullReference) && Values() == old(Values()) &&
                generatedAffixes == old(generatedAffixes) && armourType == old(armourType) &&
                unchanged(info)
      ensures itemTemplate.definition.ArmourTemplate? ==>
                outcome == Completed &&
                info.equipmentName == itemTemplate.itemName && info.itemType == itemTemplate.itemType &&
                RarityOrdinal(info.equipmentRarity) == rarityRoll && info.equipmentLevel == levelRoll &&
                info.isEquipped == old(info.isEquipped) &&
                info.equipmentSlot == MappedSlot(typeOfArmourToGenerate, old(info.equipmentSlot)) &&
                armourType == old(armourType)
      ensures itemTemplate.definition.ArmourTemplate? ==>
                var settings := FindRaritySettings(raritySettings, RarityFromOrdinal(rarityRoll));
                var affixes := RolledAffixes(itemTemplate.definition.possibleAffixes, settings.rarityAffixBonusRange,
                                             tierStats, countRoll, valueRolls, pickRolls);
                generatedAffixes == Some(affixes) &&
                Values() == ApplyAffixSeq(
                  ArmourValues(
                    ScaledArmour(BaselineOr(armourType, physicalRoll, old(physicalArmour)), levelRoll,
                                 itemLevelFactor, settings.rarityMultiplier),
                    ScaledArmour(BaselineOr(armourType, magicalRoll, old(magicalArmour)), levelRoll,
                                 itemLevelFactor, settings.rarityMultiplier),
                    old(statBonuses), ZeroResistances(AllElements)),
                  affixes, currentItemTier, itemLevelFactor)
    {
      if !itemTemplate.definition.ArmourTemplate? {
        return Threw(NullReference);
      }
      info.GenerateBaseItemInfo(itemTemplate, playerLevel, rarityRoll, levelRoll);
      info.equipmentSlot := MappedSlot(typeOfArmourToGenerate, info.equipmentSlot);
      RarityOrdinalRoundTrip(info.equipmentRarity);
      ghost var baseStats := statBonuses;

      InitializeElementalResistances();
      RollBaselineByArmourType(physicalRoll, magicalRoll);
      var settings := FindRaritySettings(raritySettings, info.equipmentRarity);
      ScaleArmourValues(settings.rarityMultiplier, itemLevelFactor);
      ghost var scaled := Values();
      assert scaled == ArmourValues(
        ScaledArmour(BaselineOr(armourType, physicalRoll, old(physicalArmour)), levelRoll,
                     itemLevelFactor, settings.rarityMultiplier),
        ScaledArmour(BaselineOr(armourType, magicalRoll, old(magicalArmour)), levelRoll,
                     itemLevelFactor, settings.rarityMultiplier),
        baseStats, ZeroResistances(AllElements));

      generatedAffixes := Some([]);
      ghost var affixes := RolledAffixes(itemTemplate.definition.possibleAffixes, settings.rarityAffixBonusRange,
                                         tierStats, countRoll, valueRolls, pickRolls);
      if settings.rarityAffixBonusRange.max > 0 {
        GenerateAffixes(settings.rarityAffixBonusRange.min, settings.rarityAffixBonusRange.max,
                        itemTemplate.definition.possibleAffixes, tierStats, countRoll, valueRolls, pickRolls);
        assert [] + affixes == affixes;
      }
      assert generatedAffixes == Some(affixes) && Values() == scaled;
      ApplyAffixes(currentItemTier, itemLevelFactor);
      return Completed;
    }

    /** GenerateArmourStatsDescription, as a list of lines: the two armour
        lines, then the core stat bonuses, the resistances and the affixes. */
    method GenerateArmourStatsDescription() returns (lines: seq<DescriptionLine>)
      ensures lines == Description(physicalArmour, magicalArmour, statBonuses, elementalResistances, generatedAffixes)
    {
      lines := [PhysicalArmourLine(physicalArmour), MagicalArmourLine(magicalArmour)];
      var bonuses := CoreBonusDescription();
      var resistances := ResistanceDescription();
      var affixes := AffixDescription();
      lines := lines + bonuses + resistances + affixes;
    }

    /** The core stat bonus part of the tooltip, only shown if positive. */
    method CoreBonusDescription() returns (lines: seq<DescriptionLine>)
      ensures lines == BonusLines(statBonuses)
    {
      lines := [];
      var b := statBonuses;
      var hasAnyCoreBonus := b.strength > 0 || b.dexterity > 0 || b.intelligence > 0 ||
                             b.vitality > 0 || b.magic > 0 || b.luck > 0;
      if hasAnyCoreBonus {
        if b.strength > 0 { lines := lines + [BonusLine(StrengthBonus, b.strength)]; }
        ghost var upTo := BonusIf(StrengthBonus, b.strength);
        assert lines == upTo;
        if b.dexterity > 0 { lines := lines + [BonusLine(DexterityBonus, b.dexterity)]; }
        upTo := upTo + BonusIf(DexterityBonus, b.dexterity);
        assert lines == upTo;
        if b.intelligence > 0 { lines := lines + [BonusLine(IntelligenceBonus, b.intelligence)]; }
        upTo := upTo + BonusIf(IntelligenceBonus, b.intelligence);
        assert lines == upTo;
        if b.vitality > 0 { lines := lines + [BonusLine(VitalityBonus, b.vitality)]; }
        upTo := upTo + BonusIf(VitalityBonus, b.vitality);
        assert lines == upTo;
        if b.magic > 0 { lines := lines + [BonusLine(MagicBonus, b.magic)]; }
        upTo := upTo + BonusIf(MagicBonus, b.magic);
        assert lines == upTo;
        if b.luck > 0 { lines := lines + [BonusLine(LuckBonus, b.luck)]; }
        upTo := upTo + BonusIf(LuckBonus, b.luck);
        assert lines == upTo;
      }
    }

    /** The resistance part of the tooltip: rows at or below 0% are skipped. */
    method ResistanceDescription() returns (lines: seq<DescriptionLine>)
      ensures lines == ResistanceLines(elementalResistances)
    {
      lines := [];
      var i := 0;
      while i < |elementalResistances|
        invariant 0 <= i <= |elementalResistances|
        invariant lines == ResistanceLines(elementalResistances[..i])
      {
        var res := elementalResistances[i];
        assert elementalResistances[..i + 1][..i] == elementalResistances[..i];
        if res.resistancePercentage > 0.0 {
          lines := lines + [ResistanceLine(res.damageType, res.resistancePercentage)];
        }
        i := i + 1;
      }
      assert elementalResistances[..i] == elementalResistances;
    }

    /** The affix part of the tooltip: a separator and one line per affix,
        or nothing when the list is null or empty. */
    method AffixDescription() returns (lines: seq<DescriptionLine>)
      ensures lines == AffixPart(generatedAffixes)
    {
      lines := [];
      if generatedAffixes.Some? && |generatedAffixes.value| > 0 {
        var affixes := generatedAffixes.value;
        lines := lines + [AffixSeparator];
        var k := 0;
        while k < |affixes|
          invariant 0 <= k <= |affixes|
          invariant lines == [AffixSeparator] + AffixLines(affixes[..k])
        {
          var generatedAffix := affixes[k];
          AffixNameLength(generatedAffix.affixType);
          var name := AffixTypeName(generatedAffix.affixType);
          if IsAddsAffix(generatedAffix.affixType) {
            lines := lines + [AddsLine(generatedAffix.value, name[5..])];
          } else {
            lines := lines + [IncreasedLine(name[9..], generatedAffix.value)];
          }
          assert affixes[..k + 1][..k] == affixes[..k];
          k := k + 1;
        }
        assert affixes[..k] == affixes;
      }
    }
  }

  /** `(int)(v * (1 + level * itemLevelFactor) * rarityMult)`, the scaled
      armour value. */
  function ScaledArmour(v: int, level: int, itemLevelFactor: real, rarityMult: real): (r: int)
    ensures v >= 0 && level >= 0 && itemLevelFactor >= 0.0 && rarityMult >= 0.0 ==> r >= 0
    ensures level == 0 && rarityMult == 1.0 ==> r == v
    ensures rarityMult == 0.0 ==> r == 0
  {
    var scaled := v as real * (1.0 + level as real * itemLevelFactor);
    if v >= 0 && level >= 0 && itemLevelFactor >= 0.0 && rarityMult >= 0.0 then
      NonNegativeProduct(level as real, itemLevelFactor);
      NonNegativeProduct(v as real, 1.0 + level as real * itemLevelFactor);
      NonNegativeProduct(scaled, rarityMult);
      Trunc(scaled * rarityMult)
    else
      Trunc(scaled * rarityMult)
  }

  lemma NonNegativeProduct(a: real, b: real)
    requires a >= 0.0 && b >= 0.0
    ensures a * b >= 0.0
  {
  }

  /** The rolls GenerateAffixes consumes, when the rarity allows affixes:
      the count in [min, max), one value per template affix in its tier
      range, and one index per pick. */
  predicate AffixRollsFit(possible: seq<Affix>, range: StatRange<int>, tier: StatRange<CorePlayerStats>,
                          countRoll: int, valueRolls: seq<int>, pickRolls: seq<int>) {
    range.max > 0 ==>
      RangeRoll(countRoll, range.min, range.max) &&
      ValueRollsFit(possible, valueRolls, tier) &&
      PickRollsFit(pickRolls, |Candidates(possible, valueRolls)|)
  }

  /** The affix list a freshly generated piece carries: the picks when the
      rarity allows affixes, otherwise the empty list. */
  function RolledAffixes(possible: seq<Affix>, range: StatRange<int>, tier: StatRange<CorePlayerStats>,
                         countRoll: int, valueRolls: seq<int>, pickRolls: seq<int>): seq<Affix>
    requires AffixRollsFit(possible, range, tier, countRoll, valueRolls, pickRolls)
  {
    if range.max > 0 then Picks(Candidates(possible, valueRolls), pickRolls, countRoll) else []
  }

  /** The baseline value the roll leaves: the roll for the four handled
      armour types, the previous value for gauntlets and rings. */
  function BaselineOr(kind: ArmourType, roll: int, previous: int): int {
    if BaselineRanges(kind).Some? then roll else previous
  }

  /** A generated piece has exactly one resistance row per element, in
      enum order, each in [0, 100]; its magic and luck bonuses are the ones
      it had before; every affix it carries is of a handled type with a
      value in its tier range, and there are at most as many as the rarity
      allows (fewer than its range's max). */
  lemma GeneratedPieceFacts(physicalArmour: int, magicalArmour: int, statBonuses: CorePlayerStats,
                            possible: seq<Affix>, range: StatRange<int>, tier: StatRange<CorePlayerStats>,
                            countRoll: int, valueRolls: seq<int>, pickRolls: seq<int>,
                            currentItemTier: int, itemLevelFactor: real)
    requires AffixRollsFit(possible, range, tier, countRoll, valueRolls, pickRolls)
    ensures var affixes := RolledAffixes(possible, range, tier, countRoll, valueRolls, pickRolls);
      var r := ApplyAffixSeq(ArmourValues(physicalArmour, magicalArmour, statBonuses, ZeroResistances(AllElements)),
                             affixes, currentItemTier, itemLevelFactor);
      && |r.resistances| == |AllElements|
      && (forall j :: 0 <= j < |AllElements| ==> r.resistances[j].damageType == AllElements[j])
      && RowsWithin(r.resistances)
      && r.statBonuses.magic == statBonuses.magic && r.statBonuses.luck == statBonuses.luck
      && (forall a :: a in affixes ==>
            IsArmourAffix(a.affixType) &&
            RangeRoll(a.value, TierStat(a.affixType, tier.min), TierStat(a.affixType, tier.max)))
      && (range.max > 0 && range.min < range.max ==> |affixes| < range.max)
      && (range.max <= 0 ==> affixes == [])
  {
    var affixes := RolledAffixes(possible, range, tier, countRoll, valueRolls, pickRolls);
    ApplyAffixTotals(ArmourValues(physicalArmour, magicalArmour, statBonuses, ZeroResistances(AllElements)),
                     affixes, currentItemTier, itemLevelFactor);
    if range.max > 0 {
      GeneratedAffixesFit(possible, valueRolls, tier, pickRolls, countRoll);
    }
  }
}
