/**
 * The DNA mutators of the mint iteration (mint/v2/dna_mutator.rs): each item
 * kind rewrites a copy of the base avatar's DNA strand by strand, in place.
 *
 * Three names this file uses are not defined anywhere in mint/v2: the
 * `MAX_QUANTITY` that bounds the quantity and the two tables
 * `ARMOR_SLOT_PROBABILITIES` and `PET_TYPE_PROBABILITIES`. They are inputs
 * here. Every roll reads the randomness of the subject `roll`, and nothing
 * between two rolls of one mutation changes it, so both rolls of a mutation
 * read the same hash: `randomHash`.
 */
module DnaMutator {
  import opened Bits
  import opened TypesV2
  import opened Avatars
  import opened Outcomes
  import opened AvatarUtils
  import opened AttributeBlock
  import opened SlotRoller
  import AvatarMutator

  // ----- strands -----

  /**
   * `mutate_dna_strand`: the byte at `position` is rewritten by mask and or;
   * the result is the strand write `WriteDnaAt`, so the other nibble and
   * every other byte keep their values.
   */
  method MutateDnaStrand(dna: array<Byte>, position: nat, byteType: ByteType, value: Byte)
    requires position < dna.Length
    modifies dna
    ensures dna[..] == WriteDnaAt(old(dna[..]), position, byteType, value)
  {
    StrandAccessIsMaskArithmetic(dna[..], position, value);
    match byteType {
      case Full =>
        dna[position] := value;
      case High =>
        dna[position] := Or8(And8(dna[position], ByteTypeMask(High)), Shl8(value, 4));
      case Low =>
        dna[position] := Or8(And8(dna[position], ByteTypeMask(Low)), And8(value, ByteTypeMask(High)));
    }
  }

  /** A high then a low nibble write to one byte leave exactly the two nibbles written. */
  lemma NibblePairWrite(dna: seq<Byte>, position: nat, high: Byte, low: Byte)
    requires position < |dna| && high < 16 && low < 16
    ensures WriteDnaAt(WriteDnaAt(dna, position, High, high), position, Low, low)[position] == 16 * high + low
  {
    NibblesSplit(high, dna[position] % 16);
  }

  /**
   * `compute_random_quantity`: the and of DNA bytes 0 and 6, reduced modulo
   * `MAX_QUANTITY`; it is below `MAX_QUANTITY` and below both bytes.
   */
  function ComputeRandomQuantity(dna: seq<Byte>, maxQuantity: Byte): (r: Byte)
    requires |dna| >= 7 && maxQuantity > 0
    ensures r < maxQuantity && r <= dna[0] && r <= dna[6]
  {
    var both := And8(dna[0], dna[6]);
    ReductionShrinks(both, maxQuantity);
    both % maxQuantity
  }

  /** A remainder is below the divisor and no larger than the dividend. */
  lemma ReductionShrinks(a: nat, m: nat)
    requires m > 0
    ensures a % m < m && a % m <= a
  {
    if a >= m {
      var q := a / m;
      assert q >= 1;
      assert a == m * q + a % m;
      assert m * q >= m;
    }
  }

  /**
   * With byte 0 at `0x12`, as it is when a pet part computes its quantity,
   * the and keeps only bits 1 and 4 of byte 6: the quantity before the
   * reduction is 0, 2, 16 or 18.
   */
  lemma PetPartQuantityBits(x: Byte)
    ensures And8(0x12, x) == 16 * (x / 16 % 2) + 2 * (x / 2 % 2)
    ensures And8(0x12, x) in {0, 2, 16, 18}
  {
    var x1, x2, x3, x4 := x / 2, x / 2 / 2, x / 2 / 2 / 2, x / 2 / 2 / 2 / 2;
    assert BitAnd(18, x) == 2 * BitAnd(9, x1);
    assert BitAnd(9, x1) == 2 * BitAnd(4, x2) + x1 % 2;
    assert BitAnd(4, x2) == 2 * BitAnd(2, x3);
    assert BitAnd(2, x3) == 2 * BitAnd(1, x4);
    assert BitAnd(1, x4) == x4 % 2;
    assert x4 == x / 16;
  }

  /** A fresh array holding `dna`, the `let mut avatar = base_avatar` of every mutator. */
  method CopyDna(dna: seq<Byte>) returns (a: array<Byte>)
    ensures fresh(a) && a[..] == dna
  {
    a := new Byte[|dna|](i requires 0 <= i < |dna| => dna[i]);
  }

  /**
   * The class writes of a pet part and of a blueprint: the rolled slot to
   * the high nibble of byte 1, then the rolled pet type to its low nibble,
   * where no attribute reads it. Both rolls read the same hash.
   */
  method RollClassNibbles(dna: array<Byte>, randomHash: seq<Byte>, armorSlots: seq<(SlotType, U32)>,
                          petTypes: seq<(PetType, U32)>) returns (slotType: SlotType, petType: PetType)
    requires |randomHash| >= 4
    requires dna.Length >= ATTRIBUTE_BYTES
    modifies dna
    ensures slotType == Rolled(armorSlots, RollNumber(randomHash), Head)
    ensures petType == Rolled(petTypes, RollNumber(randomHash), TankyBulldog)
    ensures dna[1] == 16 * SlotIntoByte(slotType) + PetTypeIntoByte(petType)
    ensures ReadDnaAt(dna[..], 1, High) == SlotIntoByte(slotType)
    ensures forall i | 0 <= i < dna.Length && i != 1 :: dna[i] == old(dna[i])
  {
    slotType := RollOn(armorSlots, Head, randomHash);
    petType := RollOn(petTypes, TankyBulldog, randomHash);
    SubTypeCodesAreNibbles(PetItemType.Pet, Polymers, Glimmer, ArmorBase, slotType, petType, Horns);
    NibblePairWrite(dna[..], 1, SlotIntoByte(slotType), PetTypeIntoByte(petType));
    NibblesSplit(SlotIntoByte(slotType), PetTypeIntoByte(petType));
    MutateDnaStrand(dna, 1, High, SlotIntoByte(slotType));
    MutateDnaStrand(dna, 1, Low, PetTypeIntoByte(petType));
  }

  // ----- mutate_from_base, one per item kind -----

  /**
   * `PetItemType::mutate_from_base`. Every pet kind gets item type Pet.
   * A pet gets sub-type Pet and quantity 1; its soul count is kept.
   * A pet part gets sub-type PetPart, the class writes, custom type 1 set to
   * 1 and a quantity read when byte 0 is already `0x12`, so only bits 1 and
   * 4 of byte 6 reach it; the quantity is the soul count.
   * An egg gets sub-type Egg, custom type 1 set to 0, a pet variation from
   * bytes 7 and 8 as custom type 2, quantity 1 and 1 as the first byte of
   * the progress array. The soul count it computes is never stored, so it
   * keeps the base avatar's.
   */
  method MutatePet(petItemType: PetItemType, baseAvatar: Avatar, randomHash: seq<Byte>,
                   armorSlots: seq<(SlotType, U32)>, petTypes: seq<(PetType, U32)>, maxQuantity: Byte)
    returns (avatar: Avatar)
    requires |randomHash| >= 4
    requires HasV2Layout(baseAvatar) && maxQuantity > 0
    ensures avatar.seasonId == baseAvatar.seasonId && avatar.version == baseAvatar.version
    ensures |avatar.dna| == |baseAvatar.dna|
    ensures petItemType == PetItemType.Pet ==>
              avatar.dna[0] == 0x11 && avatar.dna[3] == 1 && avatar.souls == baseAvatar.souls &&
              forall i | 0 <= i < |avatar.dna| && i != 0 && i != 3 :: avatar.dna[i] == baseAvatar.dna[i]
    ensures petItemType == PetPart ==>
              var slotType := Rolled(armorSlots, RollNumber(randomHash), Head);
              var petType := Rolled(petTypes, RollNumber(randomHash), TankyBulldog);
              avatar.dna[0] == 0x12 &&
              avatar.dna[1] == 16 * SlotIntoByte(slotType) + PetTypeIntoByte(petType) &&
              ReadAttribute(avatar, AttrClassType2) == SlotIntoByte(slotType) &&
              avatar.dna[2] == 16 * 1 + baseAvatar.dna[2] % 16 &&
              avatar.dna[3] == avatar.souls == ComputeRandomQuantity(avatar.dna, maxQuantity) &&
              avatar.souls == And8(0x12, baseAvatar.dna[6]) % maxQuantity &&
              forall i | 4 <= i < |avatar.dna| :: avatar.dna[i] == baseAvatar.dna[i]
    ensures petItemType == Egg ==>
              avatar.dna[0] == 0x13 && avatar.dna[2] == baseAvatar.dna[2] % 16 && avatar.dna[3] == 1 &&
              avatar.dna[4] == And8(baseAvatar.dna[8], baseAvatar.dna[7]) % 16 && avatar.dna[21] == 1 &&
              avatar.souls == baseAvatar.souls &&
              forall i | 0 <= i < |avatar.dna| && i != 0 && i != 2 && i != 3 && i != 4 && i != 21 ::
                avatar.dna[i] == baseAvatar.dna[i]
  {
    if petItemType == PetItemType.Pet {
      avatar := MutateIntoPet(baseAvatar);
    } else if petItemType == PetPart {
      avatar := MutateIntoPetPart(baseAvatar, randomHash, armorSlots, petTypes, maxQuantity);
    } else {
      avatar := MutateIntoEgg(baseAvatar);
    }
  }

  /** The `PetItemType::Pet` arm of `MutatePet`. */
  method MutateIntoPet(baseAvatar: Avatar) returns (avatar: Avatar)
    requires HasV2Layout(baseAvatar)
    ensures avatar.seasonId == baseAvatar.seasonId && avatar.version == baseAvatar.version
    ensures |avatar.dna| == |baseAvatar.dna|
    ensures avatar.dna[0] == 0x11 && avatar.dna[3] == 1 && avatar.souls == baseAvatar.souls
    ensures forall i | 0 <= i < |avatar.dna| && i != 0 && i != 3 :: avatar.dna[i] == baseAvatar.dna[i]
  {
    NibblePairWrite(baseAvatar.dna, 0, 1, 1);
    var dna := CopyDna(baseAvatar.dna);
    MutateDnaStrand(dna, 0, High, ItemTypeIntoByte(ItemType.Pet));
    MutateDnaStrand(dna, 0, Low, PetItemIntoByte(PetItemType.Pet));
    MutateDnaStrand(dna, 3, Full, 1);
    avatar := baseAvatar.(dna := dna[..]);
  }

  /** The `PetItemType::PetPart` arm of `MutatePet`. */
  method MutateIntoPetPart(baseAvatar: Avatar, randomHash: seq<Byte>, armorSlots: seq<(SlotType, U32)>,
                           petTypes: seq<(PetType, U32)>, maxQuantity: Byte) returns (avatar: Avatar)
    requires |randomHash| >= 4
    requires HasV2Layout(baseAvatar) && maxQuantity > 0
    ensures avatar.seasonId == baseAvatar.seasonId && avatar.version == baseAvatar.version
    ensures |avatar.dna| == |baseAvatar.dna|
    ensures var slotType := Rolled(armorSlots, RollNumber(randomHash), Head);
            var petType := Rolled(petTypes, RollNumber(randomHash), TankyBulldog);
            avatar.dna[0] == 0x12 &&
            avatar.dna[1] == 16 * SlotIntoByte(slotType) + PetTypeIntoByte(petType) &&
            ReadAttribute(avatar, AttrClassType2) == SlotIntoByte(slotType) &&
            avatar.dna[2] == 16 * 1 + baseAvatar.dna[2] % 16 &&
            avatar.dna[3] == avatar.souls == ComputeRandomQuantity(avatar.dna, maxQuantity) &&
            avatar.souls == And8(0x12, baseAvatar.dna[6]) % maxQuantity
    ensures forall i | 4 <= i < |avatar.dna| :: avatar.dna[i] == baseAvatar.dna[i]
  {
    NibblePairWrite(baseAvatar.dna, 0, 1, 2);
    var dna := CopyDna(baseAvatar.dna);
    MutateDnaStrand(dna, 0, High, ItemTypeIntoByte(ItemType.Pet));
    MutateDnaStrand(dna, 0, Low, PetItemIntoByte(PetPart));
    var slotType, petType := RollClassNibbles(dna, randomHash, armorSlots, petTypes);
    MutateDnaStrand(dna, 2, High, 1);
    var quantity := ComputeRandomQuantity(dna[..], maxQuantity);
    MutateDnaStrand(dna, 3, Full, quantity);
    avatar := baseAvatar.(dna := dna[..], souls := quantity);
  }

  /** The `PetItemType::Egg` arm of `MutatePet`; the soul count it computes is dropped. */
  method MutateIntoEgg(baseAvatar: Avatar) returns (avatar: Avatar)
    requires HasV2Layout(baseAvatar)
    ensures avatar.seasonId == baseAvatar.seasonId && avatar.version == baseAvatar.version
    ensures |avatar.dna| == |baseAvatar.dna|
    ensures avatar.dna[0] == 0x13 && avatar.dna[2] == baseAvatar.dna[2] % 16 && avatar.dna[3] == 1
    ensures avatar.dna[4] == And8(baseAvatar.dna[8], baseAvatar.dna[7]) % 16 && avatar.dna[21] == 1
    ensures avatar.souls == baseAvatar.souls
    ensures forall i | 0 <= i < |avatar.dna| && i != 0 && i != 2 && i != 3 && i != 4 && i != 21 ::
              avatar.dna[i] == baseAvatar.dna[i]
  {
    NibblePairWrite(baseAvatar.dna, 0, 1, 3);
    var dna := CopyDna(baseAvatar.dna);
    MutateDnaStrand(dna, 0, High, ItemTypeIntoByte(ItemType.Pet));
    var soulPoints := Xor8(dna[1], dna[4]) % 99 + 1;
    MutateDnaStrand(dna, 0, Low, PetItemIntoByte(Egg));
    MutateDnaStrand(dna, 2, High, 0);
    var petVariation := And8(dna[8], dna[7]) % 16;
    MutateDnaStrand(dna, 4, Full, petVariation);
    MutateDnaStrand(dna, 3, Full, 1);
    MutateDnaStrand(dna, 21, Full, 1);
    avatar := baseAvatar.(dna := dna[..]);
  }

  /**
   * `MaterialItemType::mutate_from_base`: byte 0 becomes the item type and
   * the material's code, custom type 1 becomes 1 with the rarity kept; the
   * quantity, read from bytes 0 and 6 of the DNA as minted, goes to byte 3
   * and is the soul count. No other byte changes.
   */
  method MutateMaterial(materialType: MaterialItemType, baseAvatar: Avatar, maxQuantity: Byte)
    returns (avatar: Avatar)
    requires HasV2Layout(baseAvatar) && maxQuantity > 0
    ensures avatar.seasonId == baseAvatar.seasonId && avatar.version == baseAvatar.version
    ensures |avatar.dna| == |baseAvatar.dna|
    ensures avatar.dna[0] == 16 * ItemTypeIntoByte(ItemType.Material) + MaterialIntoByte(materialType)
    ensures avatar.dna[2] == 16 * 1 + baseAvatar.dna[2] % 16
    ensures avatar.dna[3] == avatar.souls == ComputeRandomQuantity(avatar.dna, maxQuantity)
    ensures avatar.souls < maxQuantity
    ensures forall i | 0 <= i < |avatar.dna| && i != 0 && i != 2 && i != 3 :: avatar.dna[i] == baseAvatar.dna[i]
  {
    SubTypeCodesAreNibbles(PetItemType.Pet, materialType, Glimmer, ArmorBase, Head, TankyBulldog, Horns);
    NibblePairWrite(baseAvatar.dna, 0, ItemTypeIntoByte(ItemType.Material), MaterialIntoByte(materialType));
    var dna := CopyDna(baseAvatar.dna);
    MutateDnaStrand(dna, 0, High, ItemTypeIntoByte(ItemType.Material));
    MutateDnaStrand(dna, 0, Low, MaterialIntoByte(materialType));
    MutateDnaStrand(dna, 2, High, 1);
    var quantity := ComputeRandomQuantity(dna[..], maxQuantity);
    MutateDnaStrand(dna, 3, Full, quantity);
    avatar := baseAvatar.(dna := dna[..], souls := quantity);
  }

  /**
   * `EssenceItemType::mutate_from_base`: as for a material, with the
   * essence's item type and code.
   */
  method MutateEssence(essenceType: EssenceItemType, baseAvatar: Avatar, maxQuantity: Byte)
    returns (avatar: Avatar)
    requires HasV2Layout(baseAvatar) && maxQuantity > 0
    ensures avatar.seasonId == baseAvatar.seasonId && avatar.version == baseAvatar.version
    ensures |avatar.dna| == |baseAvatar.dna|
    ensures avatar.dna[0] == 16 * ItemTypeIntoByte(Essence) + EssenceIntoByte(essenceType)
    ensures avatar.dna[2] == 16 * 1 + baseAvatar.dna[2] % 16
    ensures avatar.dna[3] == avatar.souls == ComputeRandomQuantity(avatar.dna, maxQuantity)
    ensures avatar.souls < maxQuantity
    ensures forall i | 0 <= i < |avatar.dna| && i != 0 && i != 2 && i != 3 :: avatar.dna[i] == baseAvatar.dna[i]
  {
    SubTypeCodesAreNibbles(PetItemType.Pet, Polymers, essenceType, ArmorBase, Head, TankyBulldog, Horns);
    NibblePairWrite(baseAvatar.dna, 0, ItemTypeIntoByte(Essence), EssenceIntoByte(essenceType));
    var dna := CopyDna(baseAvatar.dna);
    MutateDnaStrand(dna, 0, High, ItemTypeIntoByte(Essence));
    MutateDnaStrand(dna, 0, Low, EssenceIntoByte(essenceType));
    MutateDnaStrand(dna, 2, High, 1);
    var quantity := ComputeRandomQuantity(dna[..], maxQuantity);
    MutateDnaStrand(dna, 3, Full, quantity);
    avatar := baseAvatar.(dna := dna[..], souls := quantity);
  }

  /**
   * `EquipableItemType::mutate_from_base`: the item type is written and then
   * `todo!()` is reached, so no equipable is ever minted.
   */
  method MutateEquipable(equipableType: EquipableItemType, baseAvatar: Avatar) returns (r: Result<Avatar>)
    requires HasV2Layout(baseAvatar)
    ensures r == Err(Unimplemented)
  {
    var dna := CopyDna(baseAvatar.dna);
    MutateDnaStrand(dna, 0, High, ItemTypeIntoByte(Equipable));
    r := Err(Unimplemented);
  }

  /**
   * `BlueprintItemType::mutate_from_base`: byte 0 becomes the item type and
   * the blueprint's code, byte 1 the rolled slot over the rolled pet type,
   * custom type 1 becomes 1; the quantity, the spliced count of bytes 26 and
   * 27, from 1 to 25, goes to byte 3 and is the soul count.
   */
  method MutateBlueprint(blueprintType: BlueprintItemType, baseAvatar: Avatar, randomHash: seq<Byte>,
                         armorSlots: seq<(SlotType, U32)>, petTypes: seq<(PetType, U32)>)
    returns (avatar: Avatar)
    requires |randomHash| >= 4
    requires HasV2Layout(baseAvatar)
    ensures avatar.seasonId == baseAvatar.seasonId && avatar.version == baseAvatar.version
    ensures |avatar.dna| == |baseAvatar.dna|
    ensures avatar.dna[0] == 16 * ItemTypeIntoByte(ItemType.Blueprint) + BlueprintIntoByte(blueprintType)
    ensures var slotType := Rolled(armorSlots, RollNumber(randomHash), Head);
            var petType := Rolled(petTypes, RollNumber(randomHash), TankyBulldog);
            avatar.dna[1] == 16 * SlotIntoByte(slotType) + PetTypeIntoByte(petType) &&
            ReadAttribute(avatar, AttrClassType2) == SlotIntoByte(slotType)
    ensures avatar.dna[2] == 16 * 1 + baseAvatar.dna[2] % 16
    ensures avatar.dna[3] == avatar.souls == AvatarMutator.SplicedCount(baseAvatar.dna)
    ensures 1 <= avatar.souls <= 25
    ensures forall i | 4 <= i < |avatar.dna| :: avatar.dna[i] == baseAvatar.dna[i]
  {
    NibblePairWrite(baseAvatar.dna, 0, ItemTypeIntoByte(ItemType.Blueprint), BlueprintIntoByte(blueprintType));
    var dna := CopyDna(baseAvatar.dna);
    MutateDnaStrand(dna, 0, High, ItemTypeIntoByte(ItemType.Blueprint));
    MutateDnaStrand(dna, 0, Low, BlueprintIntoByte(blueprintType));
    var slotType, petType := RollClassNibbles(dna, randomHash, armorSlots, petTypes);
    MutateDnaStrand(dna, 2, High, 1);
    var quantity := AvatarMutator.SpliceDnaStrands(dna[26], dna[27]) % 25 + 1;
    MutateDnaStrand(dna, 3, Full, quantity);
    avatar := baseAvatar.(dna := dna[..], souls := quantity);
  }

  /**
   * `SpecialItemType::mutate_from_base`: byte 0 becomes the item type and
   * the special's code, custom type 1 becomes 0, the quantity 1; the soul
   * count is the spliced count of bytes 26 and 27, from 1 to 25.
   */
  method MutateSpecial(specialType: SpecialItemType, baseAvatar: Avatar) returns (avatar: Avatar)
    requires HasV2Layout(baseAvatar)
    ensures avatar.seasonId == baseAvatar.seasonId && avatar.version == baseAvatar.version
    ensures |avatar.dna| == |baseAvatar.dna|
    ensures avatar.dna[0] == 16 * ItemTypeIntoByte(ItemType.Special) + SpecialIntoByte(specialType)
    ensures avatar.dna[2] == baseAvatar.dna[2] % 16 && avatar.dna[3] == 1
    ensures avatar.souls == AvatarMutator.SplicedCount(baseAvatar.dna) && 1 <= avatar.souls <= 25
    ensures forall i | 0 <= i < |avatar.dna| && i != 0 && i != 2 && i != 3 :: avatar.dna[i] == baseAvatar.dna[i]
  {
    NibblePairWrite(baseAvatar.dna, 0, ItemTypeIntoByte(ItemType.Special), SpecialIntoByte(specialType));
    var dna := CopyDna(baseAvatar.dna);
    MutateDnaStrand(dna, 0, High, ItemTypeIntoByte(ItemType.Special));
    MutateDnaStrand(dna, 0, Low, SpecialIntoByte(specialType));
    MutateDnaStrand(dna, 2, High, 0);
    MutateDnaStrand(dna, 3, Full, 1);
    avatar := baseAvatar.(dna := dna[..], souls := AvatarMutator.SpliceDnaStrands(dna[26], dna[27]) % 25 + 1);
  }
}
