/**
 * The V2 forge classifier (tools/v2/mod.rs): from the attributes of the
 * leader and of the sacrifices it decides which forge, if any, they make.
 *
 * Each `input_sacrifices.iter().all(..)` or `.any(..)` of the source is a
 * named per-sacrifice test, `SacrificeTest`, run by `AllPass` or
 * `AnyPasses`, which walk the list as the iterators do; the lemmas state
 * every classification with plain quantifiers over the list.
 */
module ToolsForger {
  import opened Bits
  import opened TypesV2
  import opened Avatars
  import opened Outcomes
  import opened AvatarUtils

  /** An avatar long enough for every attribute read. */
  predicate HasAttributes(avatar: Avatar)
  {
    |avatar.dna| >= ATTRIBUTE_BYTES
  }

  predicate AllHaveAttributes(avatars: seq<Avatar>)
  {
    forall i | 0 <= i < |avatars| :: HasAttributes(avatars[i])
  }

  /** The closures the classifier passes to `all` and `any`, one per use. */
  datatype SacrificeTest =
    | LegendaryPetEquip   // a legendary pet leader equipping armor bases or weapons
    | PetPartStack        // a pet part with the leader's class type 2
    | IsMaterial          // a material
    | IsEgg               // a pet egg
    | SameSubType         // the leader's item sub-type
    | FullMatch           // the leader's item type, sub-type and class types
    | ArmorPartOrEssence  // the leader's item type and class types, or an essence

  /** The item type of the leader, as `read_attribute_as::<ItemType>` decodes it. */
  function ItemTypeOf(avatar: Avatar): ItemType
    requires HasAttributes(avatar)
  {
    ReadAttributeAs(avatar, AttrItemType, ItemTypeFromByte)
  }

  function RarityOf(avatar: Avatar): RarityType
    requires HasAttributes(avatar)
  {
    ReadAttributeAs(avatar, AttrRarityType, RarityFromByte)
  }

  function PetSubTypeOf(avatar: Avatar): PetItemType
    requires HasAttributes(avatar)
  {
    ReadAttributeAs(avatar, AttrItemSubType, PetItemFromByte)
  }

  function EquipableSubTypeOf(avatar: Avatar): EquipableItemType
    requires HasAttributes(avatar)
  {
    ReadAttributeAs(avatar, AttrItemSubType, EquipableFromByte)
  }

  /**
   * What each closure checks of one sacrifice. The legendary-pet test asks
   * the LEADER to be an equipable, and the armor test of `ArmorPartOrEssence`
   * reads the LEADER's sub-type, as the source writes them.
   */
  predicate Passes(test: SacrificeTest, leader: Avatar, sacrifice: Avatar)
    requires HasAttributes(leader) && HasAttributes(sacrifice)
  {
    match test
    case LegendaryPetEquip =>
      var equipableItem := EquipableFromByte(ReadAttribute(sacrifice, AttrItemSubType));
      HasAttributeWithValue(sacrifice, AttrRarityType, RarityIntoByte(Legendary)) &&
      HasAttributeWithSameValueAs(sacrifice, leader, AttrClassType2) &&
      HasAttributeWithValue(leader, AttrItemType, ItemTypeIntoByte(Equipable)) &&
      (equipableItem == ArmorBase || IsWeapon(equipableItem))
    case PetPartStack =>
      HasAttributeWithValue(sacrifice, AttrItemSubType, PetItemIntoByte(PetPart)) &&
      HasAttributeWithSameValueAs(sacrifice, leader, AttrClassType2)
    case IsMaterial =>
      HasAttributeWithValue(sacrifice, AttrItemType, ItemTypeIntoByte(ItemType.Material))
    case IsEgg =>
      HasAttributeWithValue(sacrifice, AttrItemType, ItemTypeIntoByte(ItemType.Pet)) &&
      HasAttributeWithValue(sacrifice, AttrItemSubType, PetItemIntoByte(Egg))
    case SameSubType =>
      HasAttributeWithSameValueAs(leader, sacrifice, AttrItemSubType)
    case FullMatch =>
      HasAttributeSetWithSameValuesAs(leader, sacrifice,
                                      [AttrItemType, AttrItemSubType, AttrClassType1, AttrClassType2])
    case ArmorPartOrEssence =>
      var equipableSacrificeItem := EquipableSubTypeOf(leader);
      (HasAttributeSetWithSameValuesAs(sacrifice, leader, [AttrItemType, AttrClassType1, AttrClassType2]) &&
       IsArmor(equipableSacrificeItem)) ||
      HasAttributeWithValue(sacrifice, AttrItemType, ItemTypeIntoByte(Essence))
  }

  /** `sacrifices.iter().all(test)`: the list is walked from the front and stops at the first failure. */
  function AllPass(test: SacrificeTest, leader: Avatar, sacrifices: seq<Avatar>): bool
    requires HasAttributes(leader) && AllHaveAttributes(sacrifices)
  {
    if |sacrifices| == 0 then true
    else Passes(test, leader, sacrifices[0]) && AllPass(test, leader, sacrifices[1..])
  }

  /** `sacrifices.iter().any(test)`: the list is walked from the front and stops at the first success. */
  function AnyPasses(test: SacrificeTest, leader: Avatar, sacrifices: seq<Avatar>): bool
    requires HasAttributes(leader) && AllHaveAttributes(sacrifices)
  {
    if |sacrifices| == 0 then false
    else Passes(test, leader, sacrifices[0]) || AnyPasses(test, leader, sacrifices[1..])
  }

  /** The walk of `all` passes exactly when every sacrifice passes. */
  lemma {:induction false} AllPassIsForall(test: SacrificeTest, leader: Avatar, sacrifices: seq<Avatar>)
    requires HasAttributes(leader) && AllHaveAttributes(sacrifices)
    ensures AllPass(test, leader, sacrifices) <==>
            forall i | 0 <= i < |sacrifices| :: Passes(test, leader, sacrifices[i])
  {
    if |sacrifices| > 0 {
      AllPassIsForall(test, leader, sacrifices[1..]);
      assert forall i | 1 <= i < |sacrifices| :: sacrifices[i] == sacrifices[1..][i - 1];
    }
  }

  /** The walk of `any` passes exactly when some sacrifice passes. */
  lemma {:induction false} AnyPassesIsExists(test: SacrificeTest, leader: Avatar, sacrifices: seq<Avatar>)
    requires HasAttributes(leader) && AllHaveAttributes(sacrifices)
    ensures AnyPasses(test, leader, sacrifices) <==>
            exists i | 0 <= i < |sacrifices| :: Passes(test, leader, sacrifices[i])
  {
    if |sacrifices| > 0 {
      AnyPassesIsExists(test, leader, sacrifices[1..]);
      assert forall i | 1 <= i < |sacrifices| :: sacrifices[i] == sacrifices[1..][i - 1];
      if AnyPasses(test, leader, sacrifices[1..]) {
        var k :| 0 <= k < |sacrifices[1..]| && Passes(test, leader, sacrifices[1..][k]);
        assert Passes(test, leader, sacrifices[k + 1]);
      }
    }
  }

  /**
   * `determine_forge_type`. Only a pet can tinker, breed or equip, only a
   * pet or a material can stack, only a blueprint builds and only an
   * equipable assembles; mating and special forges are never chosen.
   */
  function DetermineForgeType(leader: Avatar, sacrifices: seq<Avatar>): (r: ForgeType)
    requires HasAttributes(leader) && AllHaveAttributes(sacrifices)
    ensures r != Mate && r != ForgeType.Special
    ensures r in {Tinker, Breed, Equip} ==> ItemTypeOf(leader) == ItemType.Pet
    ensures r == Stack ==> ItemTypeOf(leader) in {ItemType.Pet, ItemType.Material}
    ensures r == Build ==> ItemTypeOf(leader) == ItemType.Blueprint
    ensures r == Assemble ==> ItemTypeOf(leader) == Equipable
  {
    match ItemTypeOf(leader)
    case Pet =>
      var leaderRarity := RarityOf(leader);
      var leaderSubType := PetSubTypeOf(leader);
      if leaderRarity == Legendary then
        if leaderSubType == PetItemType.Pet then
          if AllPass(LegendaryPetEquip, leader, sacrifices) then Equip else None
        else None
      else if leaderRarity == Mythical then None
      else if leaderSubType == PetItemType.Pet then None
      else if leaderSubType == PetPart then
        if AllPass(PetPartStack, leader, sacrifices) then Stack
        else if AllPass(IsMaterial, leader, sacrifices) then Tinker
        else None
      else
        if AllPass(IsEgg, leader, sacrifices) then Breed else None
    case Material =>
      if AllPass(SameSubType, leader, sacrifices) then Stack else None
    case Essence => None
    case Equipable =>
      var leaderRarity := RarityOf(leader);
      if leaderRarity == Legendary || leaderRarity == Mythical then None
      else
        var equipableItem := EquipableSubTypeOf(leader);
        var anySacrificeFullMatchLeader := AnyPasses(FullMatch, leader, sacrifices);
        var allSacrificeAreArmorPartOrEssence := AllPass(ArmorPartOrEssence, leader, sacrifices);
        if IsArmor(equipableItem) && anySacrificeFullMatchLeader && allSacrificeAreArmorPartOrEssence then Assemble
        else None
    case Blueprint =>
      if AllPass(IsMaterial, leader, sacrifices) then Build else None
    case Special => None
  }

  // ----- the classification, case by case -----

  /**
   * A legendary pet equips exactly when it has no sacrifices: its test asks
   * the leader itself to be an equipable, which a pet never is. Legendary
   * pet parts and eggs, and every mythical pet, forge nothing.
   */
  lemma LegendaryPetEquipsOnlyAlone(leader: Avatar, sacrifices: seq<Avatar>)
    requires HasAttributes(leader) && AllHaveAttributes(sacrifices)
    requires ItemTypeOf(leader) == ItemType.Pet && RarityOf(leader) == Legendary
    ensures PetSubTypeOf(leader) == PetItemType.Pet ==>
              (DetermineForgeType(leader, sacrifices) == Equip <==> |sacrifices| == 0) &&
              (DetermineForgeType(leader, sacrifices) == Equip || DetermineForgeType(leader, sacrifices) == None)
    ensures PetSubTypeOf(leader) != PetItemType.Pet ==> DetermineForgeType(leader, sacrifices) == None
  {
    if |sacrifices| > 0 {
      assert !Passes(LegendaryPetEquip, leader, sacrifices[0]);
    }
  }

  lemma MythicalPetForgesNothing(leader: Avatar, sacrifices: seq<Avatar>)
    requires HasAttributes(leader) && AllHaveAttributes(sacrifices)
    requires ItemTypeOf(leader) == ItemType.Pet && RarityOf(leader) == Mythical
    ensures DetermineForgeType(leader, sacrifices) == None
  {
  }

  /**
   * Below legendary, a pet forges nothing; a pet part stacks with pet parts
   * of its class type 2, else tinkers with materials; an egg breeds with
   * eggs only.
   */
  lemma LesserPetClassification(leader: Avatar, sacrifices: seq<Avatar>)
    requires HasAttributes(leader) && AllHaveAttributes(sacrifices)
    requires ItemTypeOf(leader) == ItemType.Pet && RarityOf(leader) !in {Legendary, Mythical}
    ensures PetSubTypeOf(leader) == PetItemType.Pet ==> DetermineForgeType(leader, sacrifices) == None
    ensures PetSubTypeOf(leader) == PetPart ==>
              var stacks := forall i | 0 <= i < |sacrifices| ::
                              ReadAttribute(sacrifices[i], AttrItemSubType) == 2 &&
                              ReadAttribute(sacrifices[i], AttrClassType2) == ReadAttribute(leader, AttrClassType2);
              var tinkers := forall i | 0 <= i < |sacrifices| :: ReadAttribute(sacrifices[i], AttrItemType) == 2;
              DetermineForgeType(leader, sacrifices) == (if stacks then Stack else if tinkers then Tinker else None)
    ensures PetSubTypeOf(leader) == Egg ==>
              var breeds := forall i | 0 <= i < |sacrifices| ::
                              ReadAttribute(sacrifices[i], AttrItemType) == 1 &&
                              ReadAttribute(sacrifices[i], AttrItemSubType) == 3;
              DetermineForgeType(leader, sacrifices) == (if breeds then Breed else None)
  {
    if PetSubTypeOf(leader) == PetPart {
      AllPassIsForall(PetPartStack, leader, sacrifices);
      AllPassIsForall(IsMaterial, leader, sacrifices);
    } else if PetSubTypeOf(leader) == Egg {
      AllPassIsForall(IsEgg, leader, sacrifices);
    }
  }

  /** A material stacks exactly when every sacrifice has its sub-type; item types are not compared. */
  lemma MaterialStacksOnSameSubType(leader: Avatar, sacrifices: seq<Avatar>)
    requires HasAttributes(leader) && AllHaveAttributes(sacrifices)
    requires ItemTypeOf(leader) == ItemType.Material
    ensures DetermineForgeType(leader, sacrifices) ==
            if forall i | 0 <= i < |sacrifices| ::
                 ReadAttribute(sacrifices[i], AttrItemSubType) == ReadAttribute(leader, AttrItemSubType)
            then Stack else None
  {
    AllPassIsForall(SameSubType, leader, sacrifices);
  }

  /** A blueprint builds exactly when every sacrifice is a material. */
  lemma BlueprintBuildsFromMaterials(leader: Avatar, sacrifices: seq<Avatar>)
    requires HasAttributes(leader) && AllHaveAttributes(sacrifices)
    requires ItemTypeOf(leader) == ItemType.Blueprint
    ensures DetermineForgeType(leader, sacrifices) ==
            if forall i | 0 <= i < |sacrifices| :: ReadAttribute(sacrifices[i], AttrItemType) == 2
            then Build else None
  {
    AllPassIsForall(IsMaterial, leader, sacrifices);
  }

  /** Essences and special items forge nothing. */
  lemma EssenceAndSpecialForgeNothing(leader: Avatar, sacrifices: seq<Avatar>)
    requires HasAttributes(leader) && AllHaveAttributes(sacrifices)
    requires ItemTypeOf(leader) in {Essence, ItemType.Special}
    ensures DetermineForgeType(leader, sacrifices) == None
  {
  }

  /**
   * An equipable below legendary assembles exactly when it is armor, some
   * sacrifice matches it on item type, sub-type and both class types, and
   * every sacrifice matches it on item type and class types or is an
   * essence; the armor condition of that last clause is the leader's.
   */
  lemma EquipableAssemblesWhen(leader: Avatar, sacrifices: seq<Avatar>)
    requires HasAttributes(leader) && AllHaveAttributes(sacrifices)
    requires ItemTypeOf(leader) == Equipable
    ensures RarityOf(leader) in {Legendary, Mythical} ==> DetermineForgeType(leader, sacrifices) == None
    ensures RarityOf(leader) !in {Legendary, Mythical} ==>
              var isArmor := IsArmor(EquipableSubTypeOf(leader));
              var someFullMatch := exists i | 0 <= i < |sacrifices| ::
                ReadAttribute(sacrifices[i], AttrItemType) == ReadAttribute(leader, AttrItemType) &&
                ReadAttribute(sacrifices[i], AttrItemSubType) == ReadAttribute(leader, AttrItemSubType) &&
                ReadAttribute(sacrifices[i], AttrClassType1) == ReadAttribute(leader, AttrClassType1) &&
                ReadAttribute(sacrifices[i], AttrClassType2) == ReadAttribute(leader, AttrClassType2);
              var allPartsOrEssences := forall i | 0 <= i < |sacrifices| ::
                (ReadAttribute(sacrifices[i], AttrItemType) == ReadAttribute(leader, AttrItemType) &&
                 ReadAttribute(sacrifices[i], AttrClassType1) == ReadAttribute(leader, AttrClassType1) &&
                 ReadAttribute(sacrifices[i], AttrClassType2) == ReadAttribute(leader, AttrClassType2) &&
                 isArmor) ||
                ReadAttribute(sacrifices[i], AttrItemType) == 3;
              DetermineForgeType(leader, sacrifices) ==
                if isArmor && someFullMatch && allPartsOrEssences then Assemble else None
  {
    AnyPassesIsExists(FullMatch, leader, sacrifices);
    AllPassIsForall(ArmorPartOrEssence, leader, sacrifices);
    FullMatchIsFourAttributes(leader, sacrifices);
    ArmorPartOrEssenceIsThreeAttributes(leader, sacrifices);
  }

  /** The full-match test compares item type, sub-type and both class types, one by one. */
  lemma FullMatchIsFourAttributes(leader: Avatar, sacrifices: seq<Avatar>)
    requires HasAttributes(leader) && AllHaveAttributes(sacrifices)
    ensures forall i | 0 <= i < |sacrifices| ::
              Passes(FullMatch, leader, sacrifices[i]) <==>
              ReadAttribute(sacrifices[i], AttrItemType) == ReadAttribute(leader, AttrItemType) &&
              ReadAttribute(sacrifices[i], AttrItemSubType) == ReadAttribute(leader, AttrItemSubType) &&
              ReadAttribute(sacrifices[i], AttrClassType1) == ReadAttribute(leader, AttrClassType1) &&
              ReadAttribute(sacrifices[i], AttrClassType2) == ReadAttribute(leader, AttrClassType2)
  {
    var full := [AttrItemType, AttrItemSubType, AttrClassType1, AttrClassType2];
    assert full[0] == AttrItemType && full[1] == AttrItemSubType;
    assert full[2] == AttrClassType1 && full[3] == AttrClassType2;
  }

  /** The armor-part test compares item type and both class types, or finds an essence. */
  lemma ArmorPartOrEssenceIsThreeAttributes(leader: Avatar, sacrifices: seq<Avatar>)
    requires HasAttributes(leader) && AllHaveAttributes(sacrifices)
    ensures forall i | 0 <= i < |sacrifices| ::
              Passes(ArmorPartOrEssence, leader, sacrifices[i]) <==>
              (ReadAttribute(sacrifices[i], AttrItemType) == ReadAttribute(leader, AttrItemType) &&
               ReadAttribute(sacrifices[i], AttrClassType1) == ReadAttribute(leader, AttrClassType1) &&
               ReadAttribute(sacrifices[i], AttrClassType2) == ReadAttribute(leader, AttrClassType2) &&
               IsArmor(EquipableSubTypeOf(leader))) ||
              ReadAttribute(sacrifices[i], AttrItemType) == 3
  {
    var part := [AttrItemType, AttrClassType1, AttrClassType2];
    assert part[0] == AttrItemType && part[1] == AttrClassType1 && part[2] == AttrClassType2;
  }

  /**
   * With no sacrifices every `all` holds and `any` fails: a material, a
   * lesser pet part and a blueprint stack, stack and build, a lesser egg
   * breeds, and an equipable assembles nothing.
   */
  lemma NoSacrifices(leader: Avatar)
    requires HasAttributes(leader)
    ensures ItemTypeOf(leader) == ItemType.Material ==> DetermineForgeType(leader, []) == Stack
    ensures ItemTypeOf(leader) == ItemType.Blueprint ==> DetermineForgeType(leader, []) == Build
    ensures ItemTypeOf(leader) == Equipable ==> DetermineForgeType(leader, []) == None
    ensures ItemTypeOf(leader) == ItemType.Pet && RarityOf(leader) !in {Legendary, Mythical} ==>
              (PetSubTypeOf(leader) == PetPart ==> DetermineForgeType(leader, []) == Stack) &&
              (PetSubTypeOf(leader) == Egg ==> DetermineForgeType(leader, []) == Breed)
    ensures (ItemTypeOf(leader) == ItemType.Pet && RarityOf(leader) == Legendary &&
             PetSubTypeOf(leader) == PetItemType.Pet) ==> DetermineForgeType(leader, []) == Equip
  {
  }

  /**
   * An item-type nibble outside 1..6 is read as a pet: such a leader
   * forges exactly as the same avatar with item type 1 does.
   */
  lemma UnknownItemTypeIsPet(leader: Avatar, sacrifices: seq<Avatar>)
    requires HasAttributes(leader) && AllHaveAttributes(sacrifices)
    requires !(1 <= ReadAttribute(leader, AttrItemType) <= 6)
    ensures ItemTypeOf(leader) == ItemType.Pet
    ensures DetermineForgeType(leader, sacrifices) ==
            DetermineForgeType(WriteAttribute(leader, AttrItemType, 1), sacrifices)
  {
    var pet := WriteAttribute(leader, AttrItemType, 1);
    assert ReadAttribute(pet, AttrItemType) == 1;
    forall test: SacrificeTest, i | 0 <= i < |sacrifices| && test in {LegendaryPetEquip, PetPartStack, IsMaterial, IsEgg}
      ensures Passes(test, leader, sacrifices[i]) == Passes(test, pet, sacrifices[i])
    {
    }
    AllSameWhenTestsAgree(LegendaryPetEquip, leader, pet, sacrifices);
    AllSameWhenTestsAgree(PetPartStack, leader, pet, sacrifices);
    AllSameWhenTestsAgree(IsMaterial, leader, pet, sacrifices);
    AllSameWhenTestsAgree(IsEgg, leader, pet, sacrifices);
  }

  /** Two leaders every sacrifice passes or fails alike pass `all` alike. */
  lemma {:induction false} AllSameWhenTestsAgree(test: SacrificeTest, leader1: Avatar, leader2: Avatar,
                                                 sacrifices: seq<Avatar>)
    requires HasAttributes(leader1) && HasAttributes(leader2) && AllHaveAttributes(sacrifices)
    requires forall i | 0 <= i < |sacrifices| :: Passes(test, leader1, sacrifices[i]) == Passes(test, leader2, sacrifices[i])
    ensures AllPass(test, leader1, sacrifices) == AllPass(test, leader2, sacrifices)
  {
    AllPassIsForall(test, leader1, sacrifices);
    AllPassIsForall(test, leader2, sacrifices);
  }

  /**
   * The armor test of the assemble rule reads the leader: an armor base
   * assembles with a copy of itself and a weapon of the same class types.
   */
  lemma AssembleAcceptsAWeaponSacrifice()
    ensures var leader := Avatar(0, V2, [0x41, 0x10, 0x01, 1, 0], 0);
            var weapon := Avatar(0, V2, [0x45, 0x10, 0x01, 1, 0], 0);
            EquipableSubTypeOf(weapon) == WeaponVersion1 &&
            DetermineForgeType(leader, [leader, weapon]) == Assemble
  {
    var leader := Avatar(0, V2, [0x41, 0x10, 0x01, 1, 0], 0);
    var weapon := Avatar(0, V2, [0x45, 0x10, 0x01, 1, 0], 0);
    assert leader.dna[0] / 16 == 4 && leader.dna[0] % 16 == 1 && leader.dna[2] % 16 == 1;
    assert weapon.dna[0] / 16 == 4 && weapon.dna[0] % 16 == 5 && leader.dna[1] == weapon.dna[1];
    FullMatchIsFourAttributes(leader, [leader, weapon]);
    ArmorPartOrEssenceIsThreeAttributes(leader, [leader, weapon]);
  }

  // ----- can_be_forged -----

  /** The avatars of the forge items, in order. */
  function AvatarsOf(items: seq<ForgeItem>): (r: seq<Avatar>)
    ensures |r| == |items| && forall i | 0 <= i < |items| :: r[i] == items[i].avatar
  {
    seq(|items|, i requires 0 <= i < |items| => items[i].avatar)
  }

  /** `iter().all(|(_, avatar)| avatar.version == version)`. */
  function AllOfVersion(items: seq<ForgeItem>, version: AvatarVersion): bool
  {
    |items| == 0 || (items[0].avatar.version == version && AllOfVersion(items[1..], version))
  }

  lemma {:induction false} AllOfVersionIsForall(items: seq<ForgeItem>, version: AvatarVersion)
    ensures AllOfVersion(items, version) <==> forall i | 0 <= i < |items| :: items[i].avatar.version == version
  {
    if |items| > 0 {
      AllOfVersionIsForall(items[1..], version);
      assert forall i | 1 <= i < |items| :: items[i] == items[1..][i - 1];
    }
  }

  /**
   * `can_be_forged`: a sacrifice of another version than the leader's is
   * refused before any type is looked at; otherwise the forge type, with
   * `None` refused as invalid components, so `Ok(None)` never comes out.
   */
  function CanBeForged(leader: ForgeItem, sacrifices: seq<ForgeItem>): (r: Result<ForgeType>)
    requires HasAttributes(leader.avatar) && AllHaveAttributes(AvatarsOf(sacrifices))
    ensures r == Err(IncompatibleAvatarVersions) <==>
            exists i | 0 <= i < |sacrifices| :: sacrifices[i].avatar.version != leader.avatar.version
    ensures r == Err(InvalidForgeComponents) <==>
            (forall i | 0 <= i < |sacrifices| :: sacrifices[i].avatar.version == leader.avatar.version) &&
            DetermineForgeType(leader.avatar, AvatarsOf(sacrifices)) == None
    ensures r.Ok? ==> r.value != None && r.value == DetermineForgeType(leader.avatar, AvatarsOf(sacrifices))
  {
    AllOfVersionIsForall(sacrifices, leader.avatar.version);
    if AllOfVersion(sacrifices, leader.avatar.version) then
      var forgeType := DetermineForgeType(leader.avatar, AvatarsOf(sacrifices));
      if forgeType == None then Err(InvalidForgeComponents) else Ok(forgeType)
    else
      Err(IncompatibleAvatarVersions)
  }
}
