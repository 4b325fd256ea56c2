/** EquipmentManager: the player's five equipment slots (one weapon and four
    armour pieces). Every equip call replaces the content of one slot, and
    only when a guard slot is already occupied. */
module Equipment {
  import opened RpgTypes
  import opened PlayerRpg
  import ArmourStats

  /** A nullable reference to an armour piece. */
  type Armour = ArmourStats.ArmourStats?

  datatype Slot = WeaponSlot | HeadSlot | ChestSlot | LegSlot | BootSlot

  /** The five slot fields, as one value. */
  datatype Slots = Slots(
    weapon: Option<WeaponStats>,
    head: Armour,
    chest: Armour,
    legs: Armour,
    boots: Armour)

  const NoSlots := Slots(None, null, null, null, null)

  /** The item handed to EquipItem, with its runtime class: `as WeaponStats`
      and `as ArmourStats` succeed only on the matching case. */
  datatype EquippableItem = WeaponItem(weapon: WeaponStats) | ArmourItem(armour: ArmourStats.ArmourStats) | OtherItem

  function AsWeapon(item: EquippableItem): Option<WeaponStats> {
    if item.WeaponItem? then Some(item.weapon) else None
  }

  function AsArmour(item: EquippableItem): Armour {
    if item.ArmourItem? then item.armour else null
  }

  /** The slot an armour type belongs in; the source has none for
      gauntlets and rings. */
  function SlotFor(kind: ArmourType): Option<Slot> {
    match kind
    case Head => Some(HeadSlot)
    case Chest => Some(ChestSlot)
    case Legs => Some(LegSlot)
    case Boots => Some(BootSlot)
    case _ => None
  }

  function Occupied(s: Slots, slot: Slot): bool {
    match slot
    case WeaponSlot => s.weapon.Some?
    case HeadSlot => s.head != null
    case ChestSlot => s.chest != null
    case LegSlot => s.legs != null
    case BootSlot => s.boots != null
  }

  /** What an armour slot holds (null for the weapon slot). */
  function ArmourIn(s: Slots, slot: Slot): Armour {
    match slot
    case WeaponSlot => null
    case HeadSlot => s.head
    case ChestSlot => s.chest
    case LegSlot => s.legs
    case BootSlot => s.boots
  }

  /** `a` and `b` agree on every slot other than `slot`. */
  predicate SameExcept(a: Slots, b: Slots, slot: Slot) {
    && (slot != WeaponSlot ==> a.weapon == b.weapon)
    && (slot != HeadSlot ==> a.head == b.head)
    && (slot != ChestSlot ==> a.chest == b.chest)
    && (slot != LegSlot ==> a.legs == b.legs)
    && (slot != BootSlot ==> a.boots == b.boots)
  }

  /** EquipWeapon: the weapon slot takes the new weapon only when it already
      holds one. */
  function EquipWeaponSlots(s: Slots, weaponToEquip: Option<WeaponStats>): Slots {
    if s.weapon.Some? then s.(weapon := weaponToEquip) else s
  }

  /** EquipArmour's switch on the piece's armour type, as written: head,
      chest and leg pieces replace an occupied slot of their own, boots are
      guarded by the LEG slot, and any other type throws. */
  function EquipArmourSlots(s: Slots, piece: Armour, kind: ArmourType): (Slots, Outcome) {
    match kind
    case Head => (if s.head != null then s.(head := piece) else s, Completed)
    case Chest => (if s.chest != null then s.(chest := piece) else s, Completed)
    case Legs => (if s.legs != null then s.(legs := piece) else s, Completed)
    case Boots => (if s.legs != null then s.(boots := piece) else s, Completed)
    case _ => (s, Threw(ArgumentOutOfRange))
  }

  /** EquipArmour with the boot case guarded by the boot slot, as the other
      three cases are guarded by their own slot. */
  function EquipArmourSlotsCorrected(s: Slots, piece: Armour, kind: ArmourType): (Slots, Outcome) {
    match kind
    case Head => (if s.head != null then s.(head := piece) else s, Completed)
    case Chest => (if s.chest != null then s.(chest := piece) else s, Completed)
    case Legs => (if s.legs != null then s.(legs := piece) else s, Completed)
    case Boots => (if s.boots != null then s.(boots := piece) else s, Completed)
    case _ => (s, Threw(ArgumentOutOfRange))
  }

  /** EquipWeapon changes only the weapon slot; an empty weapon slot stays
      empty, and an occupied one takes the new weapon. */
  lemma EquipWeaponFacts(s: Slots, weaponToEquip: Option<WeaponStats>)
    ensures var r := EquipWeaponSlots(s, weaponToEquip);
      && SameExcept(r, s, WeaponSlot)
      && (Occupied(s, WeaponSlot) ==> r.weapon == weaponToEquip)
      && (!Occupied(s, WeaponSlot) ==> r == s)
  {
  }

  /** EquipArmour as written: exactly the armour types without a slot throw
      ArgumentOutOfRange, and then nothing changes; otherwise only the
      type's own slot can change. Head, chest and leg pieces are placed
      exactly when their slot is occupied; boots exactly when the leg slot
      is occupied. */
  lemma EquipArmourFacts(s: Slots, piece: Armour, kind: ArmourType)
    ensures var (r, outcome) := EquipArmourSlots(s, piece, kind);
      && (outcome == Completed <==> SlotFor(kind).Some?)
      && (outcome != Completed ==> outcome == Threw(ArgumentOutOfRange) && r == s)
      && (SlotFor(kind).Some? ==> SameExcept(r, s, SlotFor(kind).value))
      && (SlotFor(kind).Some? && kind != Boots ==>
            ArmourIn(r, SlotFor(kind).value) ==
              if Occupied(s, SlotFor(kind).value) then piece else ArmourIn(s, SlotFor(kind).value))
      && (kind == Boots ==> r.boots == if Occupied(s, LegSlot) then piece else s.boots)
  {
  }

  /** The corrected EquipArmour guards every armour type by its own slot:
      a piece is placed exactly when that slot is occupied, and no other
      slot changes. */
  lemma EquipArmourCorrectedFacts(s: Slots, piece: Armour, kind: ArmourType)
    ensures var (r, outcome) := EquipArmourSlotsCorrected(s, piece, kind);
      && (outcome == Completed <==> SlotFor(kind).Some?)
      && (outcome != Completed ==> outcome == Threw(ArgumentOutOfRange) && r == s)
      && (SlotFor(kind).Some? ==>
            SameExcept(r, s, SlotFor(kind).value) &&
            ArmourIn(r, SlotFor(kind).value) ==
              if Occupied(s, SlotFor(kind).value) then piece else ArmourIn(s, SlotFor(kind).value))
  {
  }

  /** The two versions differ only on boots: with an empty leg slot an
      occupied boot slot is never replaced as written, and with an occupied
      leg slot an empty boot slot is filled as written. */
  lemma BootsGuardedByLegSlot(s: Slots, piece: ArmourStats.ArmourStats)
    ensures s.legs == null && s.boots != null && s.boots != piece ==>
              EquipArmourSlots(s, piece, Boots).0.boots != piece &&
              EquipArmourSlotsCorrected(s, piece, Boots).0.boots == piece
    ensures s.legs != null && s.boots == null ==>
              EquipArmourSlots(s, piece, Boots).0.boots == piece &&
              EquipArmourSlotsCorrected(s, piece, Boots).0.boots == null
    ensures forall kind :: kind != Boots ==> EquipArmourSlots(s, piece, kind) == EquipArmourSlotsCorrected(s, piece, kind)
  {
  }

  /** Since every placement is guarded by an occupied slot, a manager whose
      slots are all empty stays empty whatever is equipped (in either
      version). */
  lemma EmptySlotsStayEmpty(weaponToEquip: Option<WeaponStats>, piece: Armour, kind: ArmourType)
    ensures EquipWeaponSlots(NoSlots, weaponToEquip) == NoSlots
    ensures EquipArmourSlots(NoSlots, piece, kind).0 == NoSlots
    ensures EquipArmourSlotsCorrected(NoSlots, piece, kind).0 == NoSlots
  {
  }

  class EquipmentManager {
    var equippedWeapon: Option<WeaponStats>
    var equippedHeadArmour: Armour
    var equippedChestArmour: Armour
    var equippedLegArmour: Armour
    var equippedBootArmour: Armour

    function State(): Slots
      reads this
    {
      Slots(equippedWeapon, equippedHeadArmour, equippedChestArmour, equippedLegArmour, equippedBootArmour)
    }

    /** A fresh manager: every slot empty. */
    constructor ()
      ensures State() == NoSlots
    {
      equippedWeapon := None;
      equippedHeadArmour := null;
      equippedChestArmour := null;
      equippedLegArmour := null;
      equippedBootArmour := null;
    }

    /** EquipItem: dispatches on the item type it is told, not on the
        item's class. A weapon call casts the item (a failed cast yields
        null); an armour call casts it and throws NullReference on a failed
        cast; accessories and potions change nothing. */
    method EquipItem(itemToEquip: EquippableItem, itemType: ItemType) returns (outcome: Outcome)
      modifies this
      ensures itemType == Weapon ==>
                outcome == Completed && State() == EquipWeaponSlots(old(State()), AsWeapon(itemToEquip))
      ensures itemType == Armour && AsArmour(itemToEquip) == null ==>
                outcome == Threw(NullReference) && State() == old(State())
      ensures itemType == Armour && AsArmour(itemToEquip) != null ==>
                (State(), outcome) == EquipArmourSlots(old(State()), AsArmour(itemToEquip), AsArmour(itemToEquip).armourType)
      ensures itemType == Accessory || itemType == Potion ==> outcome == Completed && State() == old(State())
    {
      outcome := Completed;
      if itemType == Weapon {
        EquipWeapon(AsWeapon(itemToEquip));
      }
      if itemType == Armour {
        outcome := EquipArmour(AsArmour(itemToEquip));
      }
    }

    /** EquipWeapon: replaces the weapon only when one is equipped. */
    method EquipWeapon(weaponToEquip: Option<WeaponStats>)
      modifies this
      ensures State() == EquipWeaponSlots(old(State()), weaponToEquip)
    {
      if equippedWeapon.Some? {
        equippedWeapon := weaponToEquip;
      }
    }

    /** EquipArmour: reading the armour type of a null piece throws
        NullReference; otherwise the switch of EquipArmourSlots. */
    method EquipArmour(armourToEquip: Armour) returns (outcome: Outcome)
      modifies this
      ensures armourToEquip == null ==> outcome == Threw(NullReference) && State() == old(State())
      ensures armourToEquip != null ==>
                (State(), outcome) == EquipArmourSlots(old(State()), armourToEquip, armourToEquip.armourType)
    {
      if armourToEquip == null {
        return Threw(NullReference);
      }
      outcome := Completed;
      match armourToEquip.armourType {
        case Head =>
          if equippedHeadArmour != null {
            equippedHeadArmour := armourToEquip;
          }
        case Chest =>
          if equippedChestArmour != null {
            equippedChestArmour := armourToEquip;
          }
        case Legs =>
          if equippedLegArmour != null {
            equippedLegArmour := armourToEquip;
          }
        case Boots =>
          if equippedLegArmour != null {
            equippedBootArmour := armourToEquip;
          }
        case _ =>
          outcome := Threw(ArgumentOutOfRange);
      }
    }

    /** EquipArmour with the boot slot guarding the boot case. */
    method EquipArmourCorrected(armourToEquip: Armour) returns (outcome: Outcome)
      modifies this
      ensures armourToEquip == null ==> outcome == Threw(NullReference) && State() == old(State())
      ensures armourToEquip != null ==>
                (State(), outcome) == EquipArmourSlotsCorrected(old(State()), armourToEquip, armourToEquip.armourType)
    {
      if armourToEquip == null {
        return Threw(NullReference);
      }
      outcome := Completed;
      match armourToEquip.armourType {
        case Head =>
          if equippedHeadArmour != null {
            equippedHeadArmour := armourToEquip;
          }
        case Chest =>
          if equippedChestArmour != null {
            equippedChestArmour := armourToEquip;
          }
        case Legs =>
          if equippedLegArmour != null {
            equippedLegArmour := armourToEquip;
          }
        case Boots =>
          if equippedBootArmour != null {
            equippedBootArmour := armourToEquip;
          }
        case _ =>
          outcome := Threw(ArgumentOutOfRange);
      }
    }
  }
}
