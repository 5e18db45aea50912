/**
 * The mutators of the V2 tools (tools/v2/avatar_mutator.rs): each item kind
 * turns a base avatar into a minted one, drawing what it rolls from the hash
 * provider, and the two helpers they share.
 *
 * `into_pet_part`, `into_egg` and the two-argument `into_material` of the
 * builder are not part of this model; what they write (the DNA and the soul
 * count) is an input, `Helpers`, and every mutator that calls one is stated
 * in terms of it.
 */
module AvatarMutator {
  import opened Bits
  import opened TypesV2
  import opened Avatars
  import opened AvatarUtils
  import opened AttributeBlock
  import opened Builder
  import opened SlotRoller
  import opened HashProviders
  import opened ToolsConstants

  /** The DNA and soul count a builder step outside this model produces. */
  datatype Helpers = Helpers(
    intoPetPart: (Avatar, PetType, SlotType, Byte) -> (seq<Byte>, U32),
    intoEgg: (Avatar, RarityType, PetType) -> (seq<Byte>, U32),
    intoMaterial: (Avatar, MaterialItemType, Byte) -> (seq<Byte>, U32))

  // ----- MutatorUtils -----

  /** The fold of `random_quantity_from_dna_strands`: each strand shifted left by two, xor-ed in. */
  function XorFold(strands: seq<Byte>): Byte
  {
    if |strands| == 0 then 0
    else Xor8(XorFold(strands[..|strands| - 1]), Shl8(strands[|strands| - 1], 2))
  }

  /** Xor of two multiples of four is a multiple of four: the two low bits stay clear. */
  lemma {:induction false} XorKeepsLowBitsClear(a: nat, b: nat)
    requires a % 4 == 0 && b % 4 == 0
    ensures BitXor(a, b) % 4 == 0
  {
    var a4, b4 := a / 4, b / 4;
    assert a == 2 * (2 * a4) && b == 2 * (2 * b4);
    XorDouble(2 * a4, 2 * b4);
    XorDouble(a4, b4);
    var x := BitXor(a4, b4);
    assert BitXor(a, b) == 4 * x;
    assert (4 * x) % 4 == 0;
  }

  /** `x << 2` on a byte has its two low bits clear. */
  lemma ShiftByTwoClearsLowBits(x: Byte)
    ensures Shl8(x, 2) % 4 == 0
  {
    assert Pow2(2) == 4;
    var y: int := x * 4;
    assert y % 256 == 4 * (x % 64);
  }

  /** Every term of the fold has its two low bits clear, so the fold has too. */
  lemma {:induction false} XorFoldLowBitsClear(strands: seq<Byte>)
    ensures XorFold(strands) % 4 == 0
  {
    if |strands| > 0 {
      var x := strands[|strands| - 1];
      XorFoldLowBitsClear(strands[..|strands| - 1]);
      ShiftByTwoClearsLowBits(x);
      XorKeepsLowBitsClear(XorFold(strands[..|strands| - 1]), Shl8(x, 2));
    }
  }

  /**
   * `random_quantity_from_dna_strands`: the fold reduced modulo
   * `MAX_QUANTITY`. The fold's two low bits are always clear, so of the
   * eight values below `MAX_QUANTITY` only 0 and 4 can come out.
   */
  function RandomQuantityFromDnaStrands(strands: seq<Byte>): (r: Byte)
    ensures r == 0 || r == 4
  {
    XorFoldLowBitsClear(strands);
    XorFold(strands) % MAX_QUANTITY
  }

  /** `splice_dna_strands`: the first strand is the high byte of the `u16`, the second its low byte. */
  function SpliceDnaStrands(firstStrand: Byte, secondStrand: Byte): (r: U16)
    ensures r == 256 * firstStrand + secondStrand
    ensures r / 256 == firstStrand && r % 256 == secondStrand
  {
    assert Pow2(8) == 256;
    OrDisjoint(firstStrand, secondStrand, 8);
    BitOr(Pow2(8) * firstStrand, secondStrand)
  }

  /** `((splice % 25) + 1)`: a count from 1 to 25, read from DNA bytes 26 and 27. */
  function SplicedCount(dna: seq<Byte>): (r: Byte)
    requires |dna| >= 28
    ensures 1 <= r <= 25
  {
    SpliceDnaStrands(dna[26], dna[27]) % 25 + 1
  }

  // ----- mutate_from_base, one per item kind -----

  /**
   * `PetItemType::mutate_from_base`. A pet only gets its item type and
   * sub-type and draws nothing. A pet part draws one byte for its quantity,
   * then rolls its slot, then its pet type, four bytes a roll. An egg is a
   * common fire dino and draws nothing.
   */
  method MutatePet(petItemType: PetItemType, baseAvatar: Avatar, provider: HashProvider, helpers: Helpers)
    returns (avatar: Avatar)
    requires provider.Valid() && |baseAvatar.dna| >= ATTRIBUTE_BYTES
    modifies provider
    ensures provider.Valid()
    ensures PetMutation(petItemType, baseAvatar, old(provider.Ahead(9)), helpers, avatar)
    ensures petItemType == PetPart ==> provider.currentIndex == (old(provider.currentIndex) + 9) % HASH_LENGTH
    ensures petItemType != PetPart ==> provider.currentIndex == old(provider.currentIndex)
  {
    if petItemType == PetItemType.Pet {
        var builder := new AvatarBuilder.WithBaseAvatar(baseAvatar);
        builder.IntoPet(PetItemType.Pet);
        avatar := builder.Build();
        assert ItemTypeIntoByte(ItemType.Pet) == 1 && PetItemIntoByte(PetItemType.Pet) == 1;
    } else if petItemType == PetPart {
        var quantity, slotType, petType := DrawPetPart(provider);
        var written := helpers.intoPetPart(baseAvatar, petType, slotType, quantity);
        avatar := baseAvatar.(dna := written.0, souls := written.1);
    } else {
        var rarityType := Common;
        var petVariation := FireDino;
        var written := helpers.intoEgg(baseAvatar, rarityType, petVariation);
        avatar := baseAvatar.(dna := written.0, souls := written.1);
    }
  }

  /**
   * What `PetItemType::mutate_from_base` makes of the base avatar, given
   * the next nine bytes of the provider. A pet keeps everything but its
   * item type and sub-type; a pet part takes its quantity from the first
   * byte and rolls its slot on the next four and its pet type on the four
   * after them; an egg is a common fire dino.
   */
  predicate PetMutation(petItemType: PetItemType, baseAvatar: Avatar, drawn: seq<Byte>, helpers: Helpers,
                        avatar: Avatar)
    requires |baseAvatar.dna| >= ATTRIBUTE_BYTES && |drawn| >= 9
  {
    if petItemType == PetItemType.Pet then
      avatar.seasonId == baseAvatar.seasonId && avatar.version == baseAvatar.version &&
      avatar.souls == baseAvatar.souls && |avatar.dna| == |baseAvatar.dna| &&
      BlockOf(avatar) == BlockOf(baseAvatar).(itemType := 1, itemSubType := 1) &&
      (forall i | ATTRIBUTE_BYTES <= i < |avatar.dna| :: avatar.dna[i] == baseAvatar.dna[i])
    else if petItemType == PetPart then
      var slotType := Rolled(ARMOR_SLOT_PROBABILITIES, RollNumber(drawn[1..5]), Head);
      var petType := Rolled(PET_TYPE_PROBABILITIES, RollNumber(drawn[5..9]), TankyBulldog);
      var written := helpers.intoPetPart(baseAvatar, petType, slotType, drawn[0]);
      avatar == baseAvatar.(dna := written.0, souls := written.1)
    else
      var written := helpers.intoEgg(baseAvatar, Common, FireDino);
      avatar == baseAvatar.(dna := written.0, souls := written.1)
  }

  /** What a pet part draws: one byte for its quantity, then its slot and its pet type, four bytes a roll. */
  method DrawPetPart(provider: HashProvider) returns (quantity: Byte, slotType: SlotType, petType: PetType)
    requires provider.Valid()
    modifies provider
    ensures provider.Valid()
    ensures provider.currentIndex == (old(provider.currentIndex) + 9) % HASH_LENGTH
    ensures quantity == old(provider.Ahead(9))[0]
    ensures slotType == Rolled(ARMOR_SLOT_PROBABILITIES, RollNumber(old(provider.Ahead(9))[1..5]), Head)
    ensures petType == Rolled(PET_TYPE_PROBABILITIES, RollNumber(old(provider.Ahead(9))[5..9]), TankyBulldog)
  {
    WindowSplit(provider.hash, provider.currentIndex, 1, 8);
    WrapAbsorbs(provider.currentIndex + 1, 8);
    quantity := provider.GetHashByte();
    slotType, petType := RollTwice(ARMOR_SLOT_PROBABILITIES, Head, PET_TYPE_PROBABILITIES, TankyBulldog, provider);
  }

  /** A material is what `into_material` writes with the quantity read from DNA bytes 0 to 2. */
  predicate MaterialMutation(materialType: MaterialItemType, baseAvatar: Avatar, helpers: Helpers, avatar: Avatar)
    requires |baseAvatar.dna| >= 3
  {
    var written := helpers.intoMaterial(baseAvatar, materialType, RandomQuantityFromDnaStrands(baseAvatar.dna[0..3]));
    avatar == baseAvatar.(dna := written.0, souls := written.1)
  }

  /**
   * `MaterialItemType::mutate_from_base`: the quantity comes from DNA bytes
   * 0 to 2 of the base avatar, before anything is written, so it is 0 or 4;
   * nothing is drawn.
   */
  method MutateMaterial(materialType: MaterialItemType, baseAvatar: Avatar, provider: HashProvider,
                        helpers: Helpers) returns (avatar: Avatar, quantity: Byte)
    requires |baseAvatar.dna| >= 3
    ensures quantity == RandomQuantityFromDnaStrands(baseAvatar.dna[0..3])
    ensures quantity == 0 || quantity == 4
    ensures MaterialMutation(materialType, baseAvatar, helpers, avatar)
  {
    quantity := RandomQuantityFromDnaStrands(baseAvatar.dna[0..3]);
    var written := helpers.intoMaterial(baseAvatar, materialType, quantity);
    avatar := baseAvatar.(dna := written.0, souls := written.1);
  }

  /** An uncommon essence of one unit and one soul; only the attribute block changes. */
  predicate EssenceMutation(essenceType: EssenceItemType, baseAvatar: Avatar, avatar: Avatar)
    requires |baseAvatar.dna| >= ATTRIBUTE_BYTES
  {
    avatar.seasonId == baseAvatar.seasonId && avatar.version == baseAvatar.version &&
    |avatar.dna| == |baseAvatar.dna| &&
    BlockOf(avatar) == Block(ItemTypeIntoByte(Essence), EssenceIntoByte(essenceType), 0,
                             BlockOf(baseAvatar).unusedNibble, 1, RarityIntoByte(Uncommon), 1, 0) &&
    avatar.souls == 1 &&
    (forall i | ATTRIBUTE_BYTES <= i < |avatar.dna| :: avatar.dna[i] == baseAvatar.dna[i])
  }

  /**
   * `EssenceItemType::mutate_from_base`: `into_essence` with quantity 1, so an
   * uncommon essence of one unit and one soul; nothing is drawn.
   */
  method MutateEssence(essenceType: EssenceItemType, baseAvatar: Avatar, provider: HashProvider)
    returns (avatar: Avatar)
    requires |baseAvatar.dna| >= ATTRIBUTE_BYTES
    ensures EssenceMutation(essenceType, baseAvatar, avatar)
  {
    var builder := new AvatarBuilder.WithBaseAvatar(baseAvatar);
    builder.IntoEssence(essenceType, 1);
    avatar := builder.Build();
  }

  /** Two rolls one after the other: the first reads the next four bytes, the second the four after them. */
  method RollTwice<A, B>(first: seq<(A, U32)>, firstDefault: A, second: seq<(B, U32)>, secondDefault: B,
                         provider: HashProvider) returns (a: A, b: B)
    requires provider.Valid()
    modifies provider
    ensures provider.Valid()
    ensures provider.currentIndex == (old(provider.currentIndex) + 8) % HASH_LENGTH
    ensures a == Rolled(first, RollNumber(old(provider.Ahead(8))[..4]), firstDefault)
    ensures b == Rolled(second, RollNumber(old(provider.Ahead(8))[4..]), secondDefault)
  {
    WindowSplit(provider.hash, provider.currentIndex, 4, 4);
    WrapAbsorbs(provider.currentIndex + 4, 4);
    a := RollOnWith(first, firstDefault, provider);
    b := RollOnWith(second, secondDefault, provider);
  }

  /**
   * An uncommon equipable of the pet type rolled on `petRoll`: the attribute
   * block, spec byte 1 for its assembly progress, spec bytes 2 to 8 cleared,
   * every byte from 13 on kept, and the splice of DNA bytes 26 and 27 as its
   * soul count.
   */
  predicate EquipableMutation(equipableType: EquipableItemType, baseAvatar: Avatar, petRoll: seq<Byte>, avatar: Avatar)
    requires |petRoll| >= 4
    requires HasV2Layout(baseAvatar)
  {
    var petType := Rolled(PET_TYPE_PROBABILITIES, RollNumber(petRoll), TankyBulldog);
    avatar.seasonId == baseAvatar.seasonId && avatar.version == baseAvatar.version &&
    |avatar.dna| == |baseAvatar.dna| &&
    BlockOf(avatar) == Block(ItemTypeIntoByte(Equipable), EquipableIntoByte(equipableType),
                             PetTypeIntoByte(petType), BlockOf(baseAvatar).unusedNibble,
                             0, RarityIntoByte(Uncommon), 1, 0) &&
    ReadSpecByte(avatar, 1) == ArmorAssembleProgress(equipableType) &&
    (forall n: SpecByte | 2 <= n <= 8 :: ReadSpecByte(avatar, n) == 0) &&
    (forall i | 13 <= i < |avatar.dna| :: avatar.dna[i] == baseAvatar.dna[i]) &&
    avatar.souls as int == 256 * baseAvatar.dna[26] as int + baseAvatar.dna[27] as int
  }

  /**
   * `EquipableItemType::mutate_from_base`: an uncommon equipable whose soul
   * count is the whole splice of DNA bytes 26 and 27, with no reduction. The
   * pet type is rolled before the slot; the slot then goes to the class
   * nibble, which the pet type overwrites, so only the pet type is kept.
   */
  method MutateEquipable(equipableType: EquipableItemType, baseAvatar: Avatar, provider: HashProvider)
    returns (avatar: Avatar)
    requires provider.Valid() && HasV2Layout(baseAvatar)
    modifies provider
    ensures provider.Valid()
    ensures provider.currentIndex == (old(provider.currentIndex) + 8) % HASH_LENGTH
    ensures EquipableMutation(equipableType, baseAvatar, old(provider.Ahead(8))[..4], avatar)
  {
    var splicedDna := SpliceDnaStrands(baseAvatar.dna[26], baseAvatar.dna[27]);
    var petType, slotType := RollTwice(PET_TYPE_PROBABILITIES, TankyBulldog, ARMOR_SLOT_PROBABILITIES, Head, provider);
    var rarityType := Uncommon;
    var builder := new AvatarBuilder.WithBaseAvatar(baseAvatar);
    builder.IntoEquipable(equipableType, petType, slotType, rarityType, splicedDna);
    avatar := builder.Build();
  }

  /**
   * A rare blueprint of the pet type rolled on `petRoll`, for an armor base
   * with an empty pattern: the attribute block with the spliced count as
   * quantity, spec bytes 1 and 2 cleared, spec byte 3 the armor base, spec
   * bytes 4 to 7 set to 1, every byte from 12 on kept, and the spliced count
   * as its soul count.
   */
  predicate BlueprintMutation(blueprintType: BlueprintItemType, baseAvatar: Avatar, petRoll: seq<Byte>, avatar: Avatar)
    requires |petRoll| >= 4
    requires HasV2Layout(baseAvatar)
  {
    var petType := Rolled(PET_TYPE_PROBABILITIES, RollNumber(petRoll), TankyBulldog);
    avatar.seasonId == baseAvatar.seasonId && avatar.version == baseAvatar.version &&
    |avatar.dna| == |baseAvatar.dna| &&
    BlockOf(avatar) == Block(ItemTypeIntoByte(ItemType.Blueprint), BlueprintIntoByte(blueprintType),
                             PetTypeIntoByte(petType), BlockOf(baseAvatar).unusedNibble,
                             1, RarityIntoByte(Rare), SplicedCount(baseAvatar.dna), 0) &&
    ReadSpecByte(avatar, 1) == 0 && ReadSpecByte(avatar, 2) == 0 &&
    ReadSpecByte(avatar, 3) == EquipableIntoByte(ArmorBase) &&
    (forall n: SpecByte | 4 <= n <= 7 :: ReadSpecByte(avatar, n) == 1) &&
    (forall i | 12 <= i < |avatar.dna| :: avatar.dna[i] == baseAvatar.dna[i]) &&
    avatar.souls == SplicedCount(baseAvatar.dna)
  }

  /**
   * `BlueprintItemType::mutate_from_base`: a rare blueprint for an armor
   * base with an empty pattern; its quantity and its soul count are both
   * the spliced count, from 1 to 25. As for equipables, the pet type is
   * rolled before the slot and only the pet type is kept.
   */
  method MutateBlueprint(blueprintType: BlueprintItemType, baseAvatar: Avatar, provider: HashProvider)
    returns (avatar: Avatar)
    requires provider.Valid() && HasV2Layout(baseAvatar)
    modifies provider
    ensures provider.Valid()
    ensures provider.currentIndex == (old(provider.currentIndex) + 8) % HASH_LENGTH
    ensures BlueprintMutation(blueprintType, baseAvatar, old(provider.Ahead(8))[..4], avatar)
    ensures 1 <= avatar.souls <= 25
  {
    var quantity := SplicedCount(baseAvatar.dna);
    assert quantity as int % 256 == quantity as int;
    var petType, slotType := RollTwice(PET_TYPE_PROBABILITIES, TankyBulldog, ARMOR_SLOT_PROBABILITIES, Head, provider);
    var pattern: seq<MaterialItemType> := [];
    var equipableItemType := ArmorBase;
    var builder := new AvatarBuilder.WithBaseAvatar(baseAvatar);
    builder.IntoBlueprint(blueprintType, petType, slotType, equipableItemType, pattern, quantity);
    avatar := builder.Build();
    EmptyPatternHasNoBits();
  }

  /** The empty pattern's bit set and order code are both 0. */
  lemma EmptyPatternHasNoBits()
    ensures EnumsToBits([], MaterialIntoByte) == 0
    ensures EnumsOrderBits([], MaterialIntoByte) == 0
  {
    var sorted := SortByCode([], MaterialIntoByte);
    assert |sorted| == |multiset(sorted)| == 0;
  }

  /**
   * A special of custom type 0 and one unit, the rest of the block and every
   * later byte kept, with the spliced count as its soul count.
   */
  predicate SpecialMutation(specialType: SpecialItemType, baseAvatar: Avatar, avatar: Avatar)
    requires HasV2Layout(baseAvatar)
  {
    avatar.seasonId == baseAvatar.seasonId && avatar.version == baseAvatar.version &&
    |avatar.dna| == |baseAvatar.dna| &&
    BlockOf(avatar) == BlockOf(baseAvatar).(itemType := ItemTypeIntoByte(ItemType.Special),
                                            itemSubType := SpecialIntoByte(specialType),
                                            customType1 := 0, quantity := 1) &&
    (forall i | ATTRIBUTE_BYTES <= i < |avatar.dna| :: avatar.dna[i] == baseAvatar.dna[i]) &&
    avatar.souls == SplicedCount(baseAvatar.dna)
  }

  /**
   * `SpecialItemType::mutate_from_base`: a special of custom type 0 and one
   * unit, with the spliced count, from 1 to 25, as its soul count; nothing
   * is drawn.
   */
  method MutateSpecial(specialType: SpecialItemType, baseAvatar: Avatar, provider: HashProvider)
    returns (avatar: Avatar)
    requires HasV2Layout(baseAvatar)
    ensures SpecialMutation(specialType, baseAvatar, avatar)
    ensures 1 <= avatar.souls <= 25
  {
    var splicedDna := SpliceDnaStrands(baseAvatar.dna[26], baseAvatar.dna[27]);
    var builder := new AvatarBuilder.WithBaseAvatar(baseAvatar);
    builder.IntoSpecial(specialType);
    builder.WithAttribute(AttrCustomType1, 0);
    builder.WithAttribute(AttrQuantity, 1);
    builder.WithSoulCount(splicedDna % 25 + 1);
    avatar := builder.Build();
  }
}
