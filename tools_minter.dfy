/**
 * The V2 minter (tools/v2/mod.rs): for each avatar of a pack it rolls the
 * item type, takes the provider's seventh full hash as base DNA, rolls the
 * sub-type of the item type and lets that sub-type's mutator turn the base
 * avatar into the minted one.
 *
 * The random hashes of the pallet are inputs: the one the provider is built
 * from, the provider's full hashes, and the identifier drawn for each minted
 * avatar, a function of the avatar's position in the set.
 */
module ToolsMinter {
  import opened Bits
  import opened TypesV2
  import opened Avatars
  import opened Outcomes
  import opened AvatarUtils
  import opened SlotRoller
  import opened HashProviders
  import AttributeBlock
  import opened ToolsConstants
  import opened AvatarMutator

  /** `MintOption`: how many avatars, from which pack, with which version. */
  datatype MintOption = MintOption(count: nat, mintPack: PackType, mintVersion: AvatarVersion)

  /** The boxed mutator `get_mutator_from_item_type` returns: the rolled sub-type of one item kind. */
  datatype Mutator =
    | PetMutator(pet: PetItemType)
    | MaterialMutator(material: MaterialItemType)
    | EssenceMutator(essence: EssenceItemType)
    | EquipableMutator(equipable: EquipableItemType)
    | BlueprintMutator(blueprint: BlueprintItemType)
    | SpecialMutator(special: SpecialItemType)

  /** The item kind a mutator mints. */
  function KindOf(mutator: Mutator): ItemType
  {
    match mutator
    case PetMutator(_) => ItemType.Pet
    case MaterialMutator(_) => ItemType.Material
    case EssenceMutator(_) => ItemType.Essence
    case EquipableMutator(_) => ItemType.Equipable
    case BlueprintMutator(_) => ItemType.Blueprint
    case SpecialMutator(_) => ItemType.Special
  }

  /**
   * `generate_base_avatar_dna`: the first 32 bytes of the provider's seventh
   * full hash. They always fit the DNA bound, so the `IncorrectDna` branch is
   * never taken; the cursor does not move.
   */
  function GenerateBaseAvatarDna(provider: HashProvider): (r: Result<seq<Byte>>)
    reads provider
    requires provider.Valid()
    ensures r.Ok? && |r.value| == V2_DNA_LENGTH
    ensures forall i | 0 <= i < V2_DNA_LENGTH :: r.value[i] == provider.FullHash(7)[i]
  {
    DnaFrom(provider.FullHash(7)[0..32])
  }

  /**
   * The mutator a roll gives for an item kind: the sub-type the roll
   * selects on the pack's table of that kind, or the kind's first sub-type
   * when it selects none. It always mints the kind asked for.
   */
  function RolledMutator(packType: PackType, itemType: ItemType, roll: nat): (r: Mutator)
    ensures KindOf(r) == itemType
  {
    match itemType
    case Pet => PetMutator(Rolled(PetTable(packType), roll, PetItemType.Pet))
    case Material => MaterialMutator(Rolled(MaterialTable(packType), roll, Polymers))
    case Essence => EssenceMutator(Rolled(EssenceTable(packType), roll, Glimmer))
    case Equipable => EquipableMutator(Rolled(EquipableTable(packType), roll, ArmorBase))
    case Blueprint => BlueprintMutator(Rolled(BlueprintTable(packType), roll, BlueprintItemType.Blueprint))
    case Special => SpecialMutator(Rolled(SpecialTable(packType), roll, SpecialItemType.Special))
  }

  /**
   * `get_mutator_from_item_type`: one roll, four bytes of the provider, on
   * the pack's sub-type table of the item kind; a roll past every slot gives
   * the kind's first sub-type, the enum's default.
   */
  method GetMutatorFromItemType(packType: PackType, itemType: ItemType, provider: HashProvider)
    returns (mutator: Mutator)
    requires provider.Valid()
    modifies provider
    ensures provider.Valid()
    ensures provider.currentIndex == (old(provider.currentIndex) + 4) % HASH_LENGTH
    ensures KindOf(mutator) == itemType
    ensures mutator == RolledMutator(packType, itemType, RollNumber(old(provider.Ahead(4))))
  {
    match itemType {
      case Pet =>
        var p := RollOnPackTypeWith(packType, PACK_TYPE_MATERIAL_PET_ITEM_TYPE_PROBABILITIES,
                                    PACK_TYPE_EQUIPMENT_PET_ITEM_TYPE_PROBABILITIES,
                                    PACK_TYPE_SPECIAL_PET_ITEM_TYPE_PROBABILITIES, PetItemType.Pet, provider);
        mutator := PetMutator(p);
      case Material =>
        var m := RollOnPackTypeWith(packType, PACK_TYPE_MATERIAL_MATERIAL_ITEM_TYPE_PROBABILITIES,
                                    PACK_TYPE_EQUIPMENT_MATERIAL_ITEM_TYPE_PROBABILITIES,
                                    PACK_TYPE_SPECIAL_MATERIAL_ITEM_TYPE_PROBABILITIES, Polymers, provider);
        mutator := MaterialMutator(m);
      case Essence =>
        var e := RollOnPackTypeWith(packType, PACK_TYPE_MATERIAL_ESSENCE_ITEM_TYPE_PROBABILITIES,
                                    PACK_TYPE_EQUIPMENT_ESSENCE_ITEM_TYPE_PROBABILITIES,
                                    PACK_TYPE_SPECIAL_ESSENCE_ITEM_TYPE_PROBABILITIES, Glimmer, provider);
        mutator := EssenceMutator(e);
      case Equipable =>
        var q := RollOnPackTypeWith(packType, PACK_TYPE_MATERIAL_EQUIPABLE_ITEM_TYPE_PROBABILITIES,
                                    PACK_TYPE_EQUIPMENT_EQUIPABLE_ITEM_TYPE_PROBABILITIES,
                                    PACK_TYPE_SPECIAL_EQUIPABLE_ITEM_TYPE_PROBABILITIES, ArmorBase, provider);
        mutator := EquipableMutator(q);
      case Blueprint =>
        var b := RollOnPackTypeWith(packType, PACK_TYPE_MATERIAL_BLUEPRINT_ITEM_TYPE_PROBABILITIES,
                                    PACK_TYPE_EQUIPMENT_BLUEPRINT_ITEM_TYPE_PROBABILITIES,
                                    PACK_TYPE_SPECIAL_BLUEPRINT_ITEM_TYPE_PROBABILITIES,
                                    BlueprintItemType.Blueprint, provider);
        mutator := BlueprintMutator(b);
      case Special =>
        var s := RollOnPackTypeWith(packType, PACK_TYPE_MATERIAL_SPECIAL_ITEM_TYPE_PROBABILITIES,
                                    PACK_TYPE_EQUIPMENT_SPECIAL_ITEM_TYPE_PROBABILITIES,
                                    PACK_TYPE_SPECIAL_SPECIAL_ITEM_TYPE_PROBABILITIES,
                                    SpecialItemType.Special, provider);
        mutator := SpecialMutator(s);
    }
  }

  /** How many bytes of the provider a mutator draws: nine for a pet part, eight for the two rolls of an equipable or a blueprint. */
  function DrawsOf(mutator: Mutator): nat
  {
    match mutator
    case PetMutator(p) => if p == PetPart then 9 else 0
    case EquipableMutator(_) => 8
    case BlueprintMutator(_) => 8
    case _ => 0
  }

  /** What the mutator makes of the base avatar, given the next nine bytes of the provider. */
  predicate Mutation(mutator: Mutator, baseAvatar: Avatar, drawn: seq<Byte>, helpers: Helpers, avatar: Avatar)
    requires HasV2Layout(baseAvatar) && |drawn| >= 9
  {
    match mutator
    case PetMutator(p) => PetMutation(p, baseAvatar, drawn, helpers, avatar)
    case MaterialMutator(m) => MaterialMutation(m, baseAvatar, helpers, avatar)
    case EssenceMutator(e) => EssenceMutation(e, baseAvatar, avatar)
    case EquipableMutator(q) => EquipableMutation(q, baseAvatar, drawn[..4], avatar)
    case BlueprintMutator(b) => BlueprintMutation(b, baseAvatar, drawn[..4], avatar)
    case SpecialMutator(s) => SpecialMutation(s, baseAvatar, avatar)
  }

  /**
   * Where the mutator writes the item type itself, rather than through a
   * builder step outside this model, the minted avatar is of the mutator's
   * kind: every kind but materials, pet parts and eggs.
   */
  lemma MutationItemType(mutator: Mutator, baseAvatar: Avatar, drawn: seq<Byte>, helpers: Helpers, avatar: Avatar)
    requires HasV2Layout(baseAvatar) && |drawn| >= 9
    requires Mutation(mutator, baseAvatar, drawn, helpers, avatar)
    requires !mutator.MaterialMutator? && mutator != PetMutator(PetPart) && mutator != PetMutator(Egg)
    ensures ReadAttribute(avatar, AttrItemType) == ItemTypeIntoByte(KindOf(mutator))
  {
    AttributeBlock.ReadsFromBlock(avatar);
  }

  /**
   * `mutate_from_base` through the box: the mutator of the rolled sub-type
   * turns the base avatar into the minted one, drawing its bytes from the
   * provider.
   */
  method MutateFromBase(mutator: Mutator, baseAvatar: Avatar, provider: HashProvider, helpers: Helpers)
    returns (avatar: Avatar)
    requires provider.Valid() && HasV2Layout(baseAvatar)
    modifies provider
    ensures provider.Valid()
    ensures provider.currentIndex == (old(provider.currentIndex) + DrawsOf(mutator)) % HASH_LENGTH
    ensures Mutation(mutator, baseAvatar, old(provider.Ahead(9)), helpers, avatar)
    ensures avatar.seasonId == baseAvatar.seasonId && avatar.version == baseAvatar.version
  {
    ghost var start := provider.currentIndex;
    WindowSlice(provider.hash, start, 8, 0, 4);
    WindowSlice(provider.hash, start, 9, 0, 4);
    match mutator {
      case PetMutator(p) => avatar := MutatePet(p, baseAvatar, provider, helpers);
      case MaterialMutator(m) =>
        var quantity;
        avatar, quantity := MutateMaterial(m, baseAvatar, provider, helpers);
      case EssenceMutator(e) => avatar := MutateEssence(e, baseAvatar, provider);
      case EquipableMutator(q) => avatar := MutateEquipable(q, baseAvatar, provider);
      case BlueprintMutator(b) => avatar := MutateBlueprint(b, baseAvatar, provider);
      case SpecialMutator(s) => avatar := MutateSpecial(s, baseAvatar, provider);
    }
  }

  /** The seventeen bytes a mint draws: four for the item type, four for the sub-type, nine for the mutator. */
  lemma MintWindows(hash: seq<Byte>, start: nat)
    requires |hash| == HASH_LENGTH
    ensures Window(hash, start, 17)[4..8] == Window(hash, (start + 4) % HASH_LENGTH, 4)
    ensures Window(hash, start, 17)[8..] == Window(hash, ((start + 4) % HASH_LENGTH + 4) % HASH_LENGTH, 9)
  {
    WindowSlice(hash, start, 17, 4, 8);
    WindowSlice(hash, start, 17, 8, 17);
    WrapAbsorbs(start + 4, 4);
  }

  /**
   * One pass of the minting loop: the item type is rolled on the pack's item
   * table (never a blueprint nor a special item, whose weights are 0), the
   * base avatar is built from the base DNA with no souls, and the mutator of
   * the rolled kind is applied. The base DNA always fits the DNA bound, so
   * the `?` after `generate_base_avatar_dna` never returns early.
   */
  method MintOne(seasonId: SeasonId, option: MintOption, provider: HashProvider, helpers: Helpers)
    returns (rolledItemType: ItemType, avatar: Avatar)
    requires provider.Valid()
    modifies provider
    ensures provider.Valid()
    ensures rolledItemType == Rolled(ItemTable(option.mintPack), RollNumber(old(provider.Ahead(4))), ItemType.Pet)
    ensures rolledItemType != ItemType.Blueprint && rolledItemType != ItemType.Special
    ensures avatar.seasonId == seasonId && avatar.version == option.mintVersion
    ensures Mutation(RolledMutator(option.mintPack, rolledItemType, RollNumber(old(provider.Ahead(17))[4..8])),
                     Avatar(seasonId, option.mintVersion, provider.fullHashes(7)[..V2_DNA_LENGTH], 0),
                     old(provider.Ahead(17))[8..], helpers, avatar)
    ensures rolledItemType == ItemType.Essence || rolledItemType == ItemType.Equipable ==>
              ReadAttribute(avatar, AttrItemType) == ItemTypeIntoByte(rolledItemType)
  {
    ghost var start := provider.currentIndex;
    ghost var drawn := provider.Ahead(17);
    rolledItemType := RollOnPackTypeWith(option.mintPack, PACK_TYPE_MATERIAL_ITEM_PROBABILITIES,
                                             PACK_TYPE_EQUIPMENT_ITEM_PROBABILITIES,
                                             PACK_TYPE_SPECIAL_ITEM_PROBABILITIES, ItemType.Pet, provider);
    NeverRollsBlueprintOrSpecial(option.mintPack, RollNumber(old(provider.Ahead(4))));
    var baseDna := GenerateBaseAvatarDna(provider);
    var baseAvatar := Avatar(seasonId, option.mintVersion, baseDna.value, 0);
    assert baseDna.value == provider.fullHashes(7)[..V2_DNA_LENGTH];
    MintWindows(provider.hash, start);
    assert provider.Ahead(4) == drawn[4..8];
    var mutator := GetMutatorFromItemType(option.mintPack, rolledItemType, provider);
    assert provider.Ahead(9) == drawn[8..];
    avatar := MutateFromBase(mutator, baseAvatar, provider, helpers);
    if rolledItemType == ItemType.Essence || rolledItemType == ItemType.Equipable {
      MutationItemType(mutator, baseAvatar, drawn[8..], helpers, avatar);
    }
  }

  /**
   * `mint_avatar_set_for`: a fresh provider over the pallet's random hash,
   * then `count` passes of the minting loop. It never fails: the set holds
   * exactly `count` avatars, the `k`-th with the `k`-th drawn identifier, all
   * of the season and the mint version asked for.
   */
  method MintAvatarSetFor(seasonId: SeasonId, option: MintOption, hash: seq<Byte>,
                          fullHashes: nat -> seq<Byte>, avatarIds: nat -> AvatarId, helpers: Helpers)
    returns (r: Result<seq<(AvatarId, Avatar)>>)
    requires |hash| == HASH_LENGTH && forall n: nat :: |fullHashes(n)| == HASH_LENGTH
    ensures r.Ok? && |r.value| == option.count
    ensures forall k | 0 <= k < option.count ::
              r.value[k].0 == avatarIds(k) &&
              r.value[k].1.seasonId == seasonId && r.value[k].1.version == option.mintVersion
  {
    var provider := new HashProvider(hash, fullHashes);
    var mintedAvatars: seq<(AvatarId, Avatar)> := [];
    for k := 0 to option.count
      invariant provider.Valid()
      invariant |mintedAvatars| == k
      invariant forall j | 0 <= j < k ::
                  mintedAvatars[j].0 == avatarIds(j) &&
                  mintedAvatars[j].1.seasonId == seasonId && mintedAvatars[j].1.version == option.mintVersion
    {
      var rolledItemType, avatar := MintOne(seasonId, option, provider, helpers);
      var avatarId := avatarIds(k);
      mintedAvatars := mintedAvatars + [(avatarId, avatar)];
    }
    r := Ok(mintedAvatars);
  }
}
