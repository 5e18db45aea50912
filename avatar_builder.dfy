/**
 * `AvatarBuilder`: a V2 avatar assembled by a chain of attribute, spec-byte
 * and soul writes on the avatar it holds. Each `with_*`/`into_*` step of the
 * source takes the builder, changes `inner` and hands the builder on; here
 * each is a method that changes `inner`.
 *
 * The attribute writes are stated on the attribute block (bytes 0 to 4, see
 * `AttributeBlock`), the spec-byte writes on bytes 5 to 20 directly.
 */
module Builder {
  import opened Bits
  import opened TypesV2
  import opened Avatars
  import opened Outcomes
  import opened AvatarUtils
  import opened AttributeBlock

  /** The assemble-progress byte an equipable starts with: its own bit for armor, nothing for a weapon. */
  function ArmorAssembleProgress(equipableType: EquipableItemType): (r: Byte)
    ensures IsArmor(equipableType) ==> r == Pow2(EquipableIntoByte(equipableType) - 1) && r > 0
    ensures !IsArmor(equipableType) ==> r == 0
  {
    if IsArmor(equipableType) then
      OneEntryBit(equipableType, EquipableIntoByte);
      EnumsToBits([equipableType], EquipableIntoByte)
    else 0
  }

  /** `enums_to_bits` of a one-entry list is that entry's bit. */
  lemma OneEntryBit<T>(entry: T, intoByte: T -> Byte)
    requires 1 <= intoByte(entry) <= 8
    ensures EnumsToBits([entry], intoByte) == Pow2(intoByte(entry) - 1)
  {
    var code := intoByte(entry);
    assert [entry][..0] == [];
    assert EnumsToBits([entry], intoByte) == Or8(0, Shl8(1, SatSub(code, 1)));
    OneShl8(code - 1);
  }

  class AvatarBuilder {
    var inner: Avatar

    /** `with_dna`: a fresh V2 avatar of the season, holding no souls. */
    constructor WithDna(seasonId: SeasonId, dna: seq<Byte>)
      requires |dna| <= DNA_CAPACITY
      ensures inner == Avatar(seasonId, V2, dna, 0)
    {
      inner := Avatar(seasonId, V2, dna, 0);
    }

    /** `with_base_avatar`: starts from an existing avatar. */
    constructor WithBaseAvatar(avatar: Avatar)
      ensures inner == avatar
    {
      inner := avatar;
    }

    /** `with_attribute` / `with_attribute_raw`: one field of the attribute block replaced, nothing else. */
    method WithAttribute(attribute: AvatarAttributes, value: Byte)
      requires |inner.dna| >= ATTRIBUTE_BYTES
      modifies this
      ensures inner.seasonId == old(inner.seasonId) && inner.version == old(inner.version)
      ensures inner.souls == old(inner.souls) && |inner.dna| == |old(inner.dna)|
      ensures BlockOf(inner) == BlockWrite(BlockOf(old(inner)), attribute, value)
      ensures forall i | ATTRIBUTE_BYTES <= i < |inner.dna| :: inner.dna[i] == old(inner.dna[i])
    {
      WriteAttributeOnBlock(inner, attribute, value);
      inner := WriteAttribute(inner, attribute, value);
    }

    /** `with_spec_byte`: spec byte `n` is DNA byte `4 + n`; only that byte changes. */
    method WithSpecByte(specByte: SpecByte, value: Byte)
      requires |inner.dna| >= SPEC_BYTES_END
      modifies this
      ensures inner == old(inner).(dna := old(inner.dna)[4 + specByte := value])
      ensures ReadSpecByte(inner, specByte) == value
    {
      inner := WriteSpecByte(inner, specByte, value);
    }

    /** `with_soul_count`. */
    method WithSoulCount(soulCount: U32)
      modifies this
      ensures inner == old(inner).(souls := soulCount)
    {
      inner := inner.(souls := soulCount);
    }

    /** `with_progress_array` writes through `write_progress_array`, which always panics. */
    method WithProgressArray(progressArray: seq<Byte>) returns (r: Result<Avatar>)
      requires HasV2Layout(inner) && |progressArray| == PROGRESS_ARRAY_LENGTH
      ensures r.Err? && IsPanic(r.error)
      ensures inner == old(inner)
    {
      r := WriteProgressArray(inner, progressArray);
    }

    /** `add_quantity`: the quantity grows by `quantity`, held at 255; the rest of the block stays. */
    method AddQuantity(quantity: Byte)
      requires |inner.dna| >= ATTRIBUTE_BYTES
      modifies this
      ensures inner.seasonId == old(inner.seasonId) && inner.version == old(inner.version)
      ensures inner.souls == old(inner.souls) && |inner.dna| == |old(inner.dna)|
      ensures BlockOf(inner) == BlockOf(old(inner)).(quantity :=
                if BlockOf(old(inner)).quantity + quantity > U8_MAX then U8_MAX
                else BlockOf(old(inner)).quantity + quantity)
      ensures BlockOf(inner).quantity >= BlockOf(old(inner)).quantity
      ensures forall i | ATTRIBUTE_BYTES <= i < |inner.dna| :: inner.dna[i] == old(inner.dna[i])
    {
      ReadsFromBlock(inner);
      var currentQuantity := ReadAttribute(inner, AttrQuantity);
      WithAttribute(AttrQuantity, SatAddU8(currentQuantity, quantity));
    }

    /** `into_pet`: item type Pet with the given sub-type; the rest of the block stays. */
    method IntoPet(petType: PetItemType)
      requires |inner.dna| >= ATTRIBUTE_BYTES
      modifies this
      ensures inner.seasonId == old(inner.seasonId) && inner.version == old(inner.version)
      ensures inner.souls == old(inner.souls) && |inner.dna| == |old(inner.dna)|
      ensures BlockOf(inner) == BlockOf(old(inner)).(itemType := ItemTypeIntoByte(ItemType.Pet),
                                                     itemSubType := PetItemIntoByte(petType))
      ensures forall i | ATTRIBUTE_BYTES <= i < |inner.dna| :: inner.dna[i] == old(inner.dna[i])
    {
      WithAttribute(AttrItemType, ItemTypeIntoByte(ItemType.Pet));
      WithAttribute(AttrItemSubType, PetItemIntoByte(petType));
    }

    /** `into_material`: item type Material with the given sub-type; the rest of the block stays. */
    method IntoMaterial(materialType: MaterialItemType)
      requires |inner.dna| >= ATTRIBUTE_BYTES
      modifies this
      ensures inner.seasonId == old(inner.seasonId) && inner.version == old(inner.version)
      ensures inner.souls == old(inner.souls) && |inner.dna| == |old(inner.dna)|
      ensures BlockOf(inner) == BlockOf(old(inner)).(itemType := ItemTypeIntoByte(Material),
                                                     itemSubType := MaterialIntoByte(materialType))
      ensures forall i | ATTRIBUTE_BYTES <= i < |inner.dna| :: inner.dna[i] == old(inner.dna[i])
    {
      WithAttribute(AttrItemType, ItemTypeIntoByte(Material));
      WithAttribute(AttrItemSubType, MaterialIntoByte(materialType));
    }

    /**
     * `into_essence`: an uncommon essence, class types and custom type 2
     * cleared, custom type 1 set to 1, the quantity given, and one soul per
     * unit.
     */
    method IntoEssence(essenceType: EssenceItemType, quantity: Byte)
      requires |inner.dna| >= ATTRIBUTE_BYTES
      modifies this
      ensures inner.seasonId == old(inner.seasonId) && inner.version == old(inner.version)
      ensures |inner.dna| == |old(inner.dna)|
      ensures BlockOf(inner) == Block(ItemTypeIntoByte(Essence), EssenceIntoByte(essenceType), 0,
                                      BlockOf(old(inner)).unusedNibble, 1, RarityIntoByte(Uncommon), quantity, 0)
      ensures inner.souls == quantity
      ensures forall i | ATTRIBUTE_BYTES <= i < |inner.dna| :: inner.dna[i] == old(inner.dna[i])
    {
      WithKindAndClass(ItemTypeIntoByte(Essence), EssenceIntoByte(essenceType), 0, 0);
      ghost var block := BlockOf(inner);
      WithAttribute(AttrCustomType1, 1);
      WithAttribute(AttrCustomType2, 0);
      assert BlockOf(inner) == block.(customType1 := 1, customType2 := 0);
      WithAttribute(AttrRarityType, RarityIntoByte(Uncommon));
      WithAttribute(AttrQuantity, quantity);
      WithSoulCount(quantity * 1);
    }

    /**
     * The four attribute writes `into_essence`, `into_equipable` and
     * `into_blueprint` all open with: item type, sub-type, class type 1,
     * class type 2. The class types share a nibble, so the second wins.
     */
    method WithKindAndClass(itemType: Byte, itemSubType: Byte, classType1: Byte, classType2: Byte)
      requires |inner.dna| >= ATTRIBUTE_BYTES
      modifies this
      ensures inner.seasonId == old(inner.seasonId) && inner.version == old(inner.version)
      ensures inner.souls == old(inner.souls) && |inner.dna| == |old(inner.dna)|
      ensures BlockOf(inner) == BlockOf(old(inner)).(itemType := LowNibble(itemType),
                                                     itemSubType := LowNibble(itemSubType),
                                                     classType := LowNibble(classType2))
      ensures forall i | ATTRIBUTE_BYTES <= i < |inner.dna| :: inner.dna[i] == old(inner.dna[i])
    {
      WithAttribute(AttrItemType, itemType);
      WithAttribute(AttrItemSubType, itemSubType);
      WithAttribute(AttrClassType1, classType1);
      WithAttribute(AttrClassType2, classType2);
    }

    /**
     * The next four writes of `into_equipable` and `into_blueprint`: custom
     * type 1, rarity, quantity, custom type 2.
     */
    method WithCustomRarityQuantity(customType1: Byte, rarityType: Byte, quantity: Byte, customType2: Byte)
      requires |inner.dna| >= ATTRIBUTE_BYTES
      modifies this
      ensures inner.seasonId == old(inner.seasonId) && inner.version == old(inner.version)
      ensures inner.souls == old(inner.souls) && |inner.dna| == |old(inner.dna)|
      ensures BlockOf(inner) == BlockOf(old(inner)).(customType1 := LowNibble(customType1),
                                                     rarityType := LowNibble(rarityType),
                                                     quantity := quantity, customType2 := customType2)
      ensures forall i | ATTRIBUTE_BYTES <= i < |inner.dna| :: inner.dna[i] == old(inner.dna[i])
    {
      WithAttribute(AttrCustomType1, customType1);
      WithAttribute(AttrRarityType, rarityType);
      WithAttribute(AttrQuantity, quantity);
      WithAttribute(AttrCustomType2, customType2);
    }

    /**
     * `into_equipable`. The slot goes to class type 1 and the pet type then
     * to class type 2; both live in the same nibble, so the slot is lost and
     * the class nibble holds the pet type. Spec byte 1 is the piece's
     * assemble progress, spec bytes 2 to 8 are cleared.
     */
    method IntoEquipable(equipableType: EquipableItemType, petType: PetType, slotType: SlotType,
                         rarityType: RarityType, soulPoints: U32)
      requires HasV2Layout(inner)
      modifies this
      ensures inner.seasonId == old(inner.seasonId) && inner.version == old(inner.version)
      ensures |inner.dna| == |old(inner.dna)|
      ensures BlockOf(inner) == Block(ItemTypeIntoByte(Equipable), EquipableIntoByte(equipableType),
                                      PetTypeIntoByte(petType), BlockOf(old(inner)).unusedNibble,
                                      0, RarityIntoByte(rarityType), 1, 0)
      ensures ReadSpecByte(inner, 1) == ArmorAssembleProgress(equipableType)
      ensures forall n: SpecByte | 2 <= n <= 8 :: ReadSpecByte(inner, n) == 0
      ensures forall i | 13 <= i < |inner.dna| :: inner.dna[i] == old(inner.dna[i])
      ensures inner.souls == soulPoints
    {
      var armorAssembleProgress := ArmorAssembleProgress(equipableType);
      WithKindAndClass(ItemTypeIntoByte(Equipable), EquipableIntoByte(equipableType), SlotIntoByte(slotType),
                       PetTypeIntoByte(petType));
      WithCustomRarityQuantity(0, RarityIntoByte(rarityType), 1, 0);
      WithEquipableSpecBytes(armorAssembleProgress);
      ghost var specWritten := inner;
      WithSoulCount(soulPoints);
      forall n: SpecByte | 2 <= n <= 8
        ensures ReadSpecByte(inner, n) == 0
      {
        assert ReadSpecByte(specWritten, n) == 0;
      }
    }

    /** The spec-byte writes of `into_equipable`: spec byte 1 the assemble progress, spec bytes 2 to 8 zero. */
    method WithEquipableSpecBytes(armorAssembleProgress: Byte)
      requires HasV2Layout(inner)
      modifies this
      ensures inner.seasonId == old(inner.seasonId) && inner.version == old(inner.version)
      ensures inner.souls == old(inner.souls) && |inner.dna| == |old(inner.dna)|
      ensures BlockOf(inner) == BlockOf(old(inner))
      ensures ReadSpecByte(inner, 1) == armorAssembleProgress
      ensures forall n: SpecByte | 2 <= n <= 8 :: ReadSpecByte(inner, n) == 0
      ensures forall i | 13 <= i < |inner.dna| :: inner.dna[i] == old(inner.dna[i])
    {
      ghost var before := inner;
      WithSpecByte(1, armorAssembleProgress);
      WithSpecByte(2, 0);
      WithSpecByte(3, 0);
      WithSpecByte(4, 0);
      WithSpecByte(5, 0);
      WithSpecByte(6, 0);
      WithSpecByte(7, 0);
      WithSpecByte(8, 0);
      BlockReadsFirstBytes(before, inner);
    }

    /**
     * `into_blueprint`: a rare blueprint whose quantity is the soul count cut
     * to its low byte; spec byte 1 is the pattern's bit set, spec byte 2 the
     * code of its order, spec byte 3 the equipable it builds, spec bytes 4 to
     * 7 are 1. As in `into_equipable`, the class nibble ends up holding the
     * pet type.
     */
    method IntoBlueprint(blueprintType: BlueprintItemType, petType: PetType, slotType: SlotType,
                         equipableItemType: EquipableItemType, pattern: seq<MaterialItemType>,
                         soulPoints: U32)
      requires HasV2Layout(inner) && |pattern| <= USIZE_MAX
      modifies this
      ensures inner.seasonId == old(inner.seasonId) && inner.version == old(inner.version)
      ensures |inner.dna| == |old(inner.dna)|
      ensures BlockOf(inner) == Block(ItemTypeIntoByte(ItemType.Blueprint), BlueprintIntoByte(blueprintType),
                                      PetTypeIntoByte(petType), BlockOf(old(inner)).unusedNibble,
                                      1, RarityIntoByte(Rare), soulPoints % 256, 0)
      ensures ReadSpecByte(inner, 1) == EnumsToBits(pattern, MaterialIntoByte)
      ensures ReadSpecByte(inner, 2) == EnumsOrderBits(pattern, MaterialIntoByte)
      ensures ReadSpecByte(inner, 3) == EquipableIntoByte(equipableItemType)
      ensures forall n: SpecByte | 4 <= n <= 7 :: ReadSpecByte(inner, n) == 1
      ensures forall i | 12 <= i < |inner.dna| :: inner.dna[i] == old(inner.dna[i])
      ensures inner.souls == soulPoints
    {
      var patternBits := EnumsToBits(pattern, MaterialIntoByte);
      var patternOrder := EnumsOrderToBits(pattern, MaterialIntoByte);
      WithKindAndClass(ItemTypeIntoByte(ItemType.Blueprint), BlueprintIntoByte(blueprintType), SlotIntoByte(slotType),
                       PetTypeIntoByte(petType));
      WithCustomRarityQuantity(1, RarityIntoByte(Rare), soulPoints % 256, 0);
      WithBlueprintSpecBytes(patternBits, patternOrder, EquipableIntoByte(equipableItemType));
      ghost var specWritten := inner;
      WithSoulCount(soulPoints);
      forall n: SpecByte | 4 <= n <= 7
        ensures ReadSpecByte(inner, n) == 1
      {
        assert ReadSpecByte(specWritten, n) == 1;
      }
    }

    /**
     * The spec-byte writes of `into_blueprint`: the pattern's bits, its
     * order code and the equipable's code in spec bytes 1 to 3, then 1 in
     * spec bytes 4 to 7.
     */
    method WithBlueprintSpecBytes(patternBits: Byte, patternOrder: Byte, equipableCode: Byte)
      requires HasV2Layout(inner)
      modifies this
      ensures inner.seasonId == old(inner.seasonId) && inner.version == old(inner.version)
      ensures inner.souls == old(inner.souls) && |inner.dna| == |old(inner.dna)|
      ensures BlockOf(inner) == BlockOf(old(inner))
      ensures ReadSpecByte(inner, 1) == patternBits && ReadSpecByte(inner, 2) == patternOrder
      ensures ReadSpecByte(inner, 3) == equipableCode
      ensures forall n: SpecByte | 4 <= n <= 7 :: ReadSpecByte(inner, n) == 1
      ensures forall i | 12 <= i < |inner.dna| :: inner.dna[i] == old(inner.dna[i])
    {
      ghost var before := inner;
      WithSpecByte(1, patternBits);
      WithSpecByte(2, patternOrder);
      WithSpecByte(3, equipableCode);
      WithSpecByte(4, 1);
      WithSpecByte(5, 1);
      WithSpecByte(6, 1);
      WithSpecByte(7, 1);
      BlockReadsFirstBytes(before, inner);
    }

    /** `into_special`: item type Special with the given sub-type; the rest of the block stays. */
    method IntoSpecial(specialType: SpecialItemType)
      requires |inner.dna| >= ATTRIBUTE_BYTES
      modifies this
      ensures inner.seasonId == old(inner.seasonId) && inner.version == old(inner.version)
      ensures inner.souls == old(inner.souls) && |inner.dna| == |old(inner.dna)|
      ensures BlockOf(inner) == BlockOf(old(inner)).(itemType := ItemTypeIntoByte(ItemType.Special),
                                                     itemSubType := SpecialIntoByte(specialType))
      ensures forall i | ATTRIBUTE_BYTES <= i < |inner.dna| :: inner.dna[i] == old(inner.dna[i])
    {
      WithAttribute(AttrItemType, ItemTypeIntoByte(ItemType.Special));
      WithAttribute(AttrItemSubType, SpecialIntoByte(specialType));
    }

    /** `build`: the avatar assembled so far. */
    method Build() returns (avatar: Avatar)
      ensures avatar == inner
    {
      avatar := inner;
    }
  }
}
