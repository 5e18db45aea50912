/**
 * The older enumeration set kept beside the V2 engine (`avatar/types.rs`).
 * Its enumerations carry exactly the discriminants of the V2 set, so they are
 * the datatypes of `TypesV2`; this module states what the older file fixes
 * about those codes on its own: the keep-masks of `ByteType`, the range of the
 * item type codes and their default, the gap in the slot codes, the material
 * codes, and the split of the equipables into armor and weapons.
 */
module AvatarTypes {
  import opened Bits
  import opened TypesV2

  /**
   * `ByteType`'s discriminants are keep-masks: the high-strand mask keeps
   * exactly the low nibble, the low-strand mask exactly the high nibble, and
   * together they cover the whole byte, which is the full-strand mask.
   */
  lemma {:induction false} ByteTypeMasksSplitTheByte()
    ensures ByteTypeMask(High) == 0x0F && ByteTypeMask(Low) == 0xF0 && ByteTypeMask(Full) == 0xFF
    ensures BitAnd(ByteTypeMask(Low), ByteTypeMask(High)) == 0
    ensures BitOr(ByteTypeMask(Low), ByteTypeMask(High)) == ByteTypeMask(Full)
  {
    assert Pow2(4) == 16;
    AndDisjoint(15, 15, 4);
    OrDisjoint(15, 15, 4);
  }

  /**
   * Item type codes are 1 to 6, one per variant, and the `#[default]` item
   * type is `Pet`, the variant of code 1.
   */
  lemma ItemTypeCodesAreOneToSix()
    ensures forall t: ItemType :: 1 <= ItemTypeIntoByte(t) <= 6
    ensures forall t: ItemType, u: ItemType | ItemTypeIntoByte(t) == ItemTypeIntoByte(u) :: t == u
    ensures forall b: Byte | 1 <= b <= 6 :: ItemTypeIntoByte(ItemTypeFromByte(b)) == b
    ensures ItemTypeFromByte(0) == ItemType.Pet && ItemTypeIntoByte(ItemType.Pet) == 1
  {
    forall t: ItemType, u: ItemType | ItemTypeIntoByte(t) == ItemTypeIntoByte(u)
      ensures t == u
    {
      assert ItemTypeFromByte(ItemTypeIntoByte(t)) == t;
    }
    forall b: Byte | 1 <= b <= 6
      ensures ItemTypeIntoByte(ItemTypeFromByte(b)) == b
    {
      DecodersInvertEncoders(b);
    }
  }

  /**
   * Slot codes run 1 to 9 but skip 7: the weapon slots are 8 and 9, and no
   * slot has code 7; each other code of the range names exactly one slot.
   */
  lemma SlotCodesSkipSeven()
    ensures forall s: SlotType :: SlotIntoByte(s) != 7 && 1 <= SlotIntoByte(s) <= 9
    ensures SlotIntoByte(WeaponFront) == 8 && SlotIntoByte(WeaponBack) == 9
    ensures forall s: SlotType, u: SlotType | SlotIntoByte(s) == SlotIntoByte(u) :: s == u
    ensures forall b: Byte | 1 <= b <= 9 && b != 7 :: SlotIntoByte(SlotFromByte(b)) == b
  {
    forall s: SlotType, u: SlotType | SlotIntoByte(s) == SlotIntoByte(u)
      ensures s == u
    {
      assert SlotFromByte(SlotIntoByte(s)) == s;
    }
    forall b: Byte | 1 <= b <= 9 && b != 7
      ensures SlotIntoByte(SlotFromByte(b)) == b
    {
      DecodersInvertEncoders(b);
    }
  }

  /** Material codes are exactly 1 to 8, one per material. */
  lemma MaterialCodesAreOneToEight()
    ensures forall m: MaterialItemType :: 1 <= MaterialIntoByte(m) <= 8
    ensures forall m: MaterialItemType, u: MaterialItemType | MaterialIntoByte(m) == MaterialIntoByte(u) :: m == u
    ensures forall b: Byte | 1 <= b <= 8 :: MaterialIntoByte(MaterialFromByte(b)) == b
  {
    forall m: MaterialItemType, u: MaterialItemType | MaterialIntoByte(m) == MaterialIntoByte(u)
      ensures m == u
    {
      assert MaterialFromByte(MaterialIntoByte(m)) == m;
    }
    forall b: Byte | 1 <= b <= 8
      ensures MaterialIntoByte(MaterialFromByte(b)) == b
    {
      DecodersInvertEncoders(b);
    }
  }

  /** `is_armor` and `is_weapon` split the equipables: every one is exactly one of the two. */
  lemma EquipablesAreArmorOrWeapon()
    ensures forall e: EquipableItemType :: IsArmor(e) != IsWeapon(e)
    ensures forall e: EquipableItemType :: IsArmor(e) <==> EquipableIntoByte(e) <= 4
  {
    forall e: EquipableItemType
      ensures IsArmor(e) != IsWeapon(e) && (IsArmor(e) <==> EquipableIntoByte(e) <= 4)
    {
      ArmorWeaponPartition(e);
    }
  }
}
