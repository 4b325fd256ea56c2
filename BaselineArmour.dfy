/** BaselineArmourStats: the armour totals record with its `+`, `-` and
    DeepCopy, and the ElementalResistance row with its `+` and `Equals`.
    All of them build new values and leave their operands alone. */
module BaselineArmour {
  import opened RpgTypes

  datatype BaselineArmourStats = BaselineArmourStats(
    physicalArmour: int,
    magicalArmour: int,
    statBonuses: CorePlayerStats,
    generatedAffixes: Option<seq<Affix>>)

  /** A fresh object with every field at its default, as Unity creates a
      serialised field of this class. */
  const EmptyArmourStats := BaselineArmourStats(0, 0, ZeroStats, None)

  /** `a + b`: a new object whose affix list is left null. */
  function Plus(a: BaselineArmourStats, b: BaselineArmourStats): BaselineArmourStats {
    BaselineArmourStats(a.physicalArmour + b.physicalArmour,
                        a.magicalArmour + b.magicalArmour,
                        AddStats(a.statBonuses, b.statBonuses),
                        None)
  }

  /** `a - b`: a new object whose affix list is left null. */
  function Minus(a: BaselineArmourStats, b: BaselineArmourStats): BaselineArmourStats {
    BaselineArmourStats(a.physicalArmour - b.physicalArmour,
                        a.magicalArmour - b.magicalArmour,
                        SubStats(a.statBonuses, b.statBonuses),
                        None)
  }

  /** DeepCopy: copies the three numeric fields and not the affix list. */
  function DeepCopy(a: BaselineArmourStats): BaselineArmourStats {
    BaselineArmourStats(a.physicalArmour, a.magicalArmour, a.statBonuses, None)
  }

  /** The three fields that `+`, `-` and DeepCopy carry over. */
  predicate SameTotals(a: BaselineArmourStats, b: BaselineArmourStats) {
    a.physicalArmour == b.physicalArmour &&
    a.magicalArmour == b.magicalArmour &&
    a.statBonuses == b.statBonuses
  }

  /** The default object is neutral for the totals: adding it, on either
      side, or subtracting it is a DeepCopy, and `a - a` has the totals of
      the default object. The player's starting total is that object, so
      equipping one piece gives exactly the piece's totals. */
  lemma EmptyIsNeutral(a: BaselineArmourStats)
    ensures Plus(a, EmptyArmourStats) == DeepCopy(a)
    ensures Plus(EmptyArmourStats, a) == DeepCopy(a)
    ensures Minus(a, EmptyArmourStats) == DeepCopy(a)
    ensures SameTotals(Minus(a, a), EmptyArmourStats)
  {
  }

  /** Subtracting what was added gives back the totals: `(a + b) - b` has the
      numeric fields of `a`, and `(a - b) + b` too. */
  lemma MinusUndoesPlus(a: BaselineArmourStats, b: BaselineArmourStats)
    ensures SameTotals(Minus(Plus(a, b), b), a)
    ensures SameTotals(Plus(Minus(a, b), b), a)
  {
  }

  /** `+` is commutative and associative on everything it produces. */
  lemma PlusCommutesAndAssociates(a: BaselineArmourStats, b: BaselineArmourStats, c: BaselineArmourStats)
    ensures Plus(a, b) == Plus(b, a)
    ensures Plus(Plus(a, b), c) == Plus(a, Plus(b, c))
  {
  }

  /** No result of `+`, `-` or DeepCopy carries an affix list, and DeepCopy
      keeps the three numeric fields of the original. */
  lemma OperatorsDropAffixes(a: BaselineArmourStats, b: BaselineArmourStats)
    ensures Plus(a, b).generatedAffixes.None?
    ensures Minus(a, b).generatedAffixes.None?
    ensures DeepCopy(a).generatedAffixes.None?
    ensures SameTotals(DeepCopy(a), a)
    ensures a.generatedAffixes.Some? ==> DeepCopy(a) != a
  {
  }

  /** One row of an elemental resistance table. */
  datatype ElementalResistance = ElementalResistance(
    damageType: ElementalDamageType,
    resistancePercentage: real)

  /** ElementalResistance `+` as written: same-typed rows sum their
      percentages, but the result's damageType is left at the enum default
      (Fire) because its assignment is commented out; differently typed rows
      throw InvalidOperationException. */
  function AddResistancesAsWritten(a: ElementalResistance, b: ElementalResistance): Result<ElementalResistance> {
    if a.damageType == b.damageType then
      Ok(ElementalResistance(Fire, a.resistancePercentage + b.resistancePercentage))
    else
      Err(InvalidOperation)
  }

  /** Adding two Ice rows with the operator as written yields a Fire row. */
  lemma AddResistancesAsWrittenLosesType(p: real, q: real)
    ensures AddResistancesAsWritten(ElementalResistance(Ice, p), ElementalResistance(Ice, q))
            == Ok(ElementalResistance(Fire, p + q))
    ensures AddResistancesAsWritten(ElementalResistance(Ice, p), ElementalResistance(Ice, q)).value.damageType
            != Ice
  {
  }

  /** ElementalResistance `+` with the commented-out assignment restored: the
      sum keeps the operands' damage type. */
  function AddResistances(a: ElementalResistance, b: ElementalResistance): (r: Result<ElementalResistance>)
    ensures r.Ok? <==> a.damageType == b.damageType
    ensures r.Err? ==> r.exception == InvalidOperation
    ensures r.Ok? ==> r.value.damageType == a.damageType &&
                      r.value.resistancePercentage == a.resistancePercentage + b.resistancePercentage
  {
    if a.damageType == b.damageType then
      Ok(ElementalResistance(a.damageType, a.resistancePercentage + b.resistancePercentage))
    else
      Err(InvalidOperation)
  }

  /** The two versions of `+` agree on which inputs throw and on the summed
      percentage; they differ only in the damage type of the result. */
  lemma AddResistancesAgreeExceptType(a: ElementalResistance, b: ElementalResistance)
    ensures AddResistancesAsWritten(a, b).Ok? <==> AddResistances(a, b).Ok?
    ensures AddResistancesAsWritten(a, b).Err? ==> AddResistancesAsWritten(a, b) == Err(InvalidOperation)
    ensures AddResistances(a, b).Ok? ==>
              AddResistancesAsWritten(a, b).value ==
              AddResistances(a, b).value.(damageType := Fire)
  {
  }

  /** ElementalResistance.Equals: compares the damage type only. */
  predicate ResistanceEquals(a: ElementalResistance, b: ElementalResistance) {
    a.damageType == b.damageType
  }

  /** Equals is an equivalence relation that ignores the percentage, so it
      holds of rows that structural equality tells apart. */
  lemma ResistanceEqualsIsEquivalence(a: ElementalResistance, b: ElementalResistance, c: ElementalResistance)
    ensures ResistanceEquals(a, a)
    ensures ResistanceEquals(a, b) <==> ResistanceEquals(b, a)
    ensures ResistanceEquals(a, b) && ResistanceEquals(b, c) ==> ResistanceEquals(a, c)
    ensures ResistanceEquals(a, a.(resistancePercentage := a.resistancePercentage + 1.0))
    ensures a != a.(resistancePercentage := a.resistancePercentage + 1.0)
  {
  }

  /** The index of the first row of the given type, as List.Find and the
      `for` loops over the resistance table locate it. */
  function FirstIndexOf(rows: seq<ElementalResistance>, t: ElementalDamageType): (r: Option<nat>)
    ensures r.Some? ==> r.value < |rows| && rows[r.value].damageType == t &&
                        forall j :: 0 <= j < r.value ==> rows[j].damageType != t
    ensures r.None? <==> forall j :: 0 <= j < |rows| ==> rows[j].damageType != t
  {
    if |rows| == 0 then None
    else if rows[0].damageType == t then Some(0)
    else match FirstIndexOf(rows[1..], t)
      case None => None
      case Some(i) => Some(i + 1)
  }

  /** The first index of a type depends only on the rows' types, so
      rewriting percentages never moves it. */
  lemma {:induction false} FirstIndexOfSameTypes(a: seq<ElementalResistance>, b: seq<ElementalResistance>, t: ElementalDamageType)
    requires |a| == |b|
    requires forall j :: 0 <= j < |a| ==> a[j].damageType == b[j].damageType
    ensures FirstIndexOf(a, t) == FirstIndexOf(b, t)
  {
    if |a| > 0 && a[0].damageType != t {
      FirstIndexOfSameTypes(a[1..], b[1..], t);
    }
  }

  /** A scan that stops at the first row of the type has found FirstIndexOf. */
  lemma FirstIndexAt(rows: seq<ElementalResistance>, t: ElementalDamageType, i: nat)
    requires i < |rows| && rows[i].damageType == t
    requires forall j :: 0 <= j < i ==> rows[j].damageType != t
    ensures FirstIndexOf(rows, t) == Some(i)
  {
    assert FirstIndexOf(rows, t).Some?;
  }

  /** `rows.Find(r => r.damageType == t)`: a copy of the first row of that
      type, or the default row (Fire, 0%) when there is none. */
  function FindResistance(rows: seq<ElementalResistance>, t: ElementalDamageType): (r: ElementalResistance)
    ensures (exists j :: 0 <= j < |rows| && rows[j].damageType == t) ==> r in rows && r.damageType == t
    ensures (forall j :: 0 <= j < |rows| ==> rows[j].damageType != t) ==> r == ElementalResistance(Fire, 0.0)
  {
    match FirstIndexOf(rows, t)
    case Some(i) => rows[i]
    case None => ElementalResistance(Fire, 0.0)
  }

  /** A table with one row per element, in enum order, each at 0%. */
  function ZeroResistances(elements: seq<ElementalDamageType>): (rows: seq<ElementalResistance>)
    ensures |rows| == |elements|
    ensures forall i :: 0 <= i < |rows| ==> rows[i] == ElementalResistance(elements[i], 0.0)
  {
    if |elements| == 0 then []
    else ZeroResistances(elements[..|elements| - 1]) + [ElementalResistance(elements[|elements| - 1], 0.0)]
  }
}
