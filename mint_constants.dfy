/**
 * The pack tables of the mint iteration (mint/v2/constants.rs). They carry
 * the weights of the tools iteration table for table, so every property
 * proved of those holds of these: each table sums to 1000, blueprints,
 * specials and plain pets are never rolled, and the special pack's pets are
 * all eggs. This iteration has no slot or pet-type tables of its own.
 */
module MintConstants {
  import opened Bits
  import opened TypesV2
  import opened SlotRoller
  import ToolsConstants

  // ----- PackType::Material -----

  const PACK_TYPE_MATERIAL_ITEM_PROBABILITIES: seq<(ItemType, U32)> := [
    (ItemType.Pet, 150), (ItemType.Material, 700), (ItemType.Essence, 50),
    (ItemType.Equipable, 100), (ItemType.Blueprint, 0), (ItemType.Special, 0)]

  const PACK_TYPE_MATERIAL_PET_ITEM_TYPE_PROBABILITIES: seq<(PetItemType, U32)> :=
    [(PetItemType.Pet, 0), (PetPart, 980), (Egg, 20)]

  const PACK_TYPE_MATERIAL_MATERIAL_ITEM_TYPE_PROBABILITIES: seq<(MaterialItemType, U32)> := [
    (Polymers, 125), (Electronics, 125), (PowerCells, 125), (Optics, 125),
    (Metals, 125), (Ceramics, 125), (Superconductors, 125), (Nanomaterials, 125)]

  const PACK_TYPE_MATERIAL_ESSENCE_ITEM_TYPE_PROBABILITIES: seq<(EssenceItemType, U32)> :=
    [(Glimmer, 400), (ColorSpark, 350), (GlowSpark, 250)]

  const PACK_TYPE_MATERIAL_EQUIPABLE_ITEM_TYPE_PROBABILITIES: seq<(EquipableItemType, U32)> := [
    (ArmorBase, 820), (ArmorComponent1, 50), (ArmorComponent2, 50), (ArmorComponent3, 50),
    (WeaponVersion1, 10), (WeaponVersion2, 10), (WeaponVersion3, 10)]

  const PACK_TYPE_MATERIAL_BLUEPRINT_ITEM_TYPE_PROBABILITIES: seq<(BlueprintItemType, U32)> :=
    [(BlueprintItemType.Blueprint, 1000)]

  const PACK_TYPE_MATERIAL_SPECIAL_ITEM_TYPE_PROBABILITIES: seq<(SpecialItemType, U32)> :=
    [(SpecialItemType.Special, 1000)]

  // ----- PackType::Equipment -----

  const PACK_TYPE_EQUIPMENT_ITEM_PROBABILITIES: seq<(ItemType, U32)> := [
    (ItemType.Pet, 90), (ItemType.Material, 200), (ItemType.Essence, 10),
    (ItemType.Equipable, 700), (ItemType.Blueprint, 0), (ItemType.Special, 0)]

  const PACK_TYPE_EQUIPMENT_PET_ITEM_TYPE_PROBABILITIES: seq<(PetItemType, U32)> :=
    [(PetItemType.Pet, 0), (PetPart, 800), (Egg, 200)]

  const PACK_TYPE_EQUIPMENT_MATERIAL_ITEM_TYPE_PROBABILITIES: seq<(MaterialItemType, U32)> := [
    (Polymers, 125), (Electronics, 125), (PowerCells, 125), (Optics, 125),
    (Metals, 125), (Ceramics, 125), (Superconductors, 125), (Nanomaterials, 125)]

  const PACK_TYPE_EQUIPMENT_ESSENCE_ITEM_TYPE_PROBABILITIES: seq<(EssenceItemType, U32)> :=
    [(Glimmer, 400), (ColorSpark, 350), (GlowSpark, 250)]

  const PACK_TYPE_EQUIPMENT_EQUIPABLE_ITEM_TYPE_PROBABILITIES: seq<(EquipableItemType, U32)> := [
    (ArmorBase, 820), (ArmorComponent1, 50), (ArmorComponent2, 50), (ArmorComponent3, 50),
    (WeaponVersion1, 10), (WeaponVersion2, 10), (WeaponVersion3, 10)]

  const PACK_TYPE_EQUIPMENT_BLUEPRINT_ITEM_TYPE_PROBABILITIES: seq<(BlueprintItemType, U32)> :=
    [(BlueprintItemType.Blueprint, 1000)]

  const PACK_TYPE_EQUIPMENT_SPECIAL_ITEM_TYPE_PROBABILITIES: seq<(SpecialItemType, U32)> :=
    [(SpecialItemType.Special, 1000)]

  // ----- PackType::Special -----

  const PACK_TYPE_SPECIAL_ITEM_PROBABILITIES: seq<(ItemType, U32)> := [
    (ItemType.Pet, 100), (ItemType.Material, 150), (ItemType.Essence, 50),
    (ItemType.Equipable, 700), (ItemType.Blueprint, 0), (ItemType.Special, 0)]

  const PACK_TYPE_SPECIAL_PET_ITEM_TYPE_PROBABILITIES: seq<(PetItemType, U32)> :=
    [(PetItemType.Pet, 0), (PetPart, 0), (Egg, 1000)]

  const PACK_TYPE_SPECIAL_MATERIAL_ITEM_TYPE_PROBABILITIES: seq<(MaterialItemType, U32)> := [
    (Polymers, 125), (Electronics, 125), (PowerCells, 125), (Optics, 125),
    (Metals, 125), (Ceramics, 125), (Superconductors, 125), (Nanomaterials, 125)]

  const PACK_TYPE_SPECIAL_ESSENCE_ITEM_TYPE_PROBABILITIES: seq<(EssenceItemType, U32)> :=
    [(Glimmer, 400), (ColorSpark, 350), (GlowSpark, 250)]

  const PACK_TYPE_SPECIAL_EQUIPABLE_ITEM_TYPE_PROBABILITIES: seq<(EquipableItemType, U32)> := [
    (ArmorBase, 250), (ArmorComponent1, 200), (ArmorComponent2, 200), (ArmorComponent3, 200),
    (WeaponVersion1, 50), (WeaponVersion2, 50), (WeaponVersion3, 50)]

  const PACK_TYPE_SPECIAL_BLUEPRINT_ITEM_TYPE_PROBABILITIES: seq<(BlueprintItemType, U32)> :=
    [(BlueprintItemType.Blueprint, 1000)]

  const PACK_TYPE_SPECIAL_SPECIAL_ITEM_TYPE_PROBABILITIES: seq<(SpecialItemType, U32)> :=
    [(SpecialItemType.Special, 1000)]

  // ----- the tables by pack -----

  function ItemTable(pack: PackType): seq<(ItemType, U32)>
  {
    TableFor(pack, PACK_TYPE_MATERIAL_ITEM_PROBABILITIES, PACK_TYPE_EQUIPMENT_ITEM_PROBABILITIES,
             PACK_TYPE_SPECIAL_ITEM_PROBABILITIES)
  }

  function PetTable(pack: PackType): seq<(PetItemType, U32)>
  {
    TableFor(pack, PACK_TYPE_MATERIAL_PET_ITEM_TYPE_PROBABILITIES, PACK_TYPE_EQUIPMENT_PET_ITEM_TYPE_PROBABILITIES,
             PACK_TYPE_SPECIAL_PET_ITEM_TYPE_PROBABILITIES)
  }

  function MaterialTable(pack: PackType): seq<(MaterialItemType, U32)>
  {
    TableFor(pack, PACK_TYPE_MATERIAL_MATERIAL_ITEM_TYPE_PROBABILITIES,
             PACK_TYPE_EQUIPMENT_MATERIAL_ITEM_TYPE_PROBABILITIES, PACK_TYPE_SPECIAL_MATERIAL_ITEM_TYPE_PROBABILITIES)
  }

  function EssenceTable(pack: PackType): seq<(EssenceItemType, U32)>
  {
    TableFor(pack, PACK_TYPE_MATERIAL_ESSENCE_ITEM_TYPE_PROBABILITIES,
             PACK_TYPE_EQUIPMENT_ESSENCE_ITEM_TYPE_PROBABILITIES, PACK_TYPE_SPECIAL_ESSENCE_ITEM_TYPE_PROBABILITIES)
  }

  function EquipableTable(pack: PackType): seq<(EquipableItemType, U32)>
  {
    TableFor(pack, PACK_TYPE_MATERIAL_EQUIPABLE_ITEM_TYPE_PROBABILITIES,
             PACK_TYPE_EQUIPMENT_EQUIPABLE_ITEM_TYPE_PROBABILITIES, PACK_TYPE_SPECIAL_EQUIPABLE_ITEM_TYPE_PROBABILITIES)
  }

  function BlueprintTable(pack: PackType): seq<(BlueprintItemType, U32)>
  {
    TableFor(pack, PACK_TYPE_MATERIAL_BLUEPRINT_ITEM_TYPE_PROBABILITIES,
             PACK_TYPE_EQUIPMENT_BLUEPRINT_ITEM_TYPE_PROBABILITIES, PACK_TYPE_SPECIAL_BLUEPRINT_ITEM_TYPE_PROBABILITIES)
  }

  function SpecialTable(pack: PackType): seq<(SpecialItemType, U32)>
  {
    TableFor(pack, PACK_TYPE_MATERIAL_SPECIAL_ITEM_TYPE_PROBABILITIES,
             PACK_TYPE_EQUIPMENT_SPECIAL_ITEM_TYPE_PROBABILITIES, PACK_TYPE_SPECIAL_SPECIAL_ITEM_TYPE_PROBABILITIES)
  }

  /** Table for table, the weights are those of the tools iteration. */
  lemma SameTablesAsTools(pack: PackType)
    ensures ItemTable(pack) == ToolsConstants.ItemTable(pack)
    ensures PetTable(pack) == ToolsConstants.PetTable(pack)
    ensures MaterialTable(pack) == ToolsConstants.MaterialTable(pack)
    ensures EssenceTable(pack) == ToolsConstants.EssenceTable(pack)
    ensures EquipableTable(pack) == ToolsConstants.EquipableTable(pack)
    ensures BlueprintTable(pack) == ToolsConstants.BlueprintTable(pack)
    ensures SpecialTable(pack) == ToolsConstants.SpecialTable(pack)
  {
  }

  /** The weights of every item-type table and every sub-type table sum to 1000. */
  lemma TablesSumToOneThousand(pack: PackType)
    ensures Total(ItemTable(pack), |ItemTable(pack)|) == 1000
    ensures Total(PetTable(pack), |PetTable(pack)|) == 1000
    ensures Total(MaterialTable(pack), |MaterialTable(pack)|) == 1000
    ensures Total(EssenceTable(pack), |EssenceTable(pack)|) == 1000
    ensures Total(EquipableTable(pack), |EquipableTable(pack)|) == 1000
    ensures Total(BlueprintTable(pack), |BlueprintTable(pack)|) == 1000
    ensures Total(SpecialTable(pack), |SpecialTable(pack)|) == 1000
  {
    SameTablesAsTools(pack);
    ToolsConstants.ItemTablesSumToOneThousand(pack);
    ToolsConstants.SubTypeTablesSumToOneThousand(pack);
  }

  /**
   * No roll gives a blueprint or a special item, and no roll from 1 to 1000
   * gives a plain pet; on the special pack every such roll gives an egg.
   */
  lemma NeverRolledItems(pack: PackType, roll: nat)
    requires 1 <= roll <= 1000
    ensures Rolled(ItemTable(pack), roll, ItemType.Pet) !in {ItemType.Blueprint, ItemType.Special}
    ensures Rolled(PetTable(pack), roll, PetItemType.Pet) != PetItemType.Pet
    ensures pack == PackType.Special ==> Rolled(PetTable(pack), roll, PetItemType.Pet) == Egg
  {
    SameTablesAsTools(pack);
    ToolsConstants.NeverRollsBlueprintOrSpecial(pack, roll);
    ToolsConstants.NeverRollsPlainPet(pack, roll);
    if pack == PackType.Special {
      ToolsConstants.SpecialPackPetIsEgg(roll);
    }
  }
}
