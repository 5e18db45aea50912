/**
 * The constants of the V2 engine (tools/v2/constants.rs): the largest
 * random quantity, the stack probability, and the weight tables the slot
 * roller rolls on, one per pack and item kind, plus the slot and pet-type
 * tables the mutators use. Every table's weights sum to 1000.
 */
module ToolsConstants {
  import opened Bits
  import opened TypesV2
  import opened SlotRoller

  /** `MAX_QUANTITY`: random quantities are reduced modulo this. */
  const MAX_QUANTITY: Byte := 8

  /** `STACK_PROBABILITY`: 5% of 256 (12.8), rounded up to 13. */
  const STACK_PROBABILITY: Byte := 13

  // ----- PackType::Material -----

  const PACK_TYPE_MATERIAL_ITEM_PROBABILITIES: seq<(ItemType, U32)> := [
    (ItemType.Pet, 150), (ItemType.Material, 700), (ItemType.Essence, 50),
    (ItemType.Equipable, 100), (ItemType.Blueprint, 0), (ItemType.Special, 0)]

  const PACK_TYPE_MATERIAL_PET_ITEM_TYPE_PROBABILITIES: seq<(PetItemType, U32)> :=
    [(PetItemType.Pet, 0), (PetPart, 980), (Egg, 20)]

  const PACK_TYPE_MATERIAL_MATERIAL_ITEM_TYPE_PROBABILITIES: seq<(MaterialItemType, U32)> := [
    (Polymers, 125), (Electronics, 125), (PowerCells, 125), (Optics, 125),
    (Metals, 125), (Ceramics, 125), (Superconductors, 125), (Nanomaterials, 125)]

  const PACK_TYPE_MATERIAL_ESSENCE_ITEM_TYPE_PROBABILITIES: seq<(EssenceItemType, U32)> :=
    [(Glimmer, 400), (ColorSpark, 350), (GlowSpark, 250)]

  const PACK_TYPE_MATERIAL_EQUIPABLE_ITEM_TYPE_PROBABILITIES: seq<(EquipableItemType, U32)> := [
    (ArmorBase, 820), (ArmorComponent1, 50), (ArmorComponent2, 50), (ArmorComponent3, 50),
    (WeaponVersion1, 10), (WeaponVersion2, 10), (WeaponVersion3, 10)]

  const PACK_TYPE_MATERIAL_BLUEPRINT_ITEM_TYPE_PROBABILITIES: seq<(BlueprintItemType, U32)> :=
    [(BlueprintItemType.Blueprint, 1000)]

  const PACK_TYPE_MATERIAL_SPECIAL_ITEM_TYPE_PROBABILITIES: seq<(SpecialItemType, U32)> :=
    [(SpecialItemType.Special, 1000)]

  // ----- PackType::Equipment -----

  const PACK_TYPE_EQUIPMENT_ITEM_PROBABILITIES: seq<(ItemType, U32)> := [
    (ItemType.Pet, 90), (ItemType.Material, 200), (ItemType.Essence, 10),
    (ItemType.Equipable, 700), (ItemType.Blueprint, 0), (ItemType.Special, 0)]

  const PACK_TYPE_EQUIPMENT_PET_ITEM_TYPE_PROBABILITIES: seq<(PetItemType, U32)> :=
    [(PetItemType.Pet, 0), (PetPart, 800), (Egg, 200)]

  const PACK_TYPE_EQUIPMENT_MATERIAL_ITEM_TYPE_PROBABILITIES: seq<(MaterialItemType, U32)> := [
    (Polymers, 125), (Electronics, 125), (PowerCells, 125), (Optics, 125),
    (Metals, 125), (Ceramics, 125), (Superconductors, 125), (Nanomaterials, 125)]

  const PACK_TYPE_EQUIPMENT_ESSENCE_ITEM_TYPE_PROBABILITIES: seq<(EssenceItemType, U32)> :=
    [(Glimmer, 400), (ColorSpark, 350), (GlowSpark, 250)]

  const PACK_TYPE_EQUIPMENT_EQUIPABLE_ITEM_TYPE_PROBABILITIES: seq<(EquipableItemType, U32)> := [
    (ArmorBase, 820), (ArmorComponent1, 50), (ArmorComponent2, 50), (ArmorComponent3, 50),
    (WeaponVersion1, 10), (WeaponVersion2, 10), (WeaponVersion3, 10)]

  const PACK_TYPE_EQUIPMENT_BLUEPRINT_ITEM_TYPE_PROBABILITIES: seq<(BlueprintItemType, U32)> :=
    [(BlueprintItemType.Blueprint, 1000)]

  const PACK_TYPE_EQUIPMENT_SPECIAL_ITEM_TYPE_PROBABILITIES: seq<(SpecialItemType, U32)> :=
    [(SpecialItemType.Special, 1000)]

  // ----- PackType::Special -----

  const PACK_TYPE_SPECIAL_ITEM_PROBABILITIES: seq<(ItemType, U32)> := [
    (ItemType.Pet, 100), (ItemType.Material, 150), (ItemType.Essence, 50),
    (ItemType.Equipable, 700), (ItemType.Blueprint, 0), (ItemType.Special, 0)]

  const PACK_TYPE_SPECIAL_PET_ITEM_TYPE_PROBABILITIES: seq<(PetItemType, U32)> :=
    [(PetItemType.Pet, 0), (PetPart, 0), (Egg, 1000)]

  const PACK_TYPE_SPECIAL_MATERIAL_ITEM_TYPE_PROBABILITIES: seq<(MaterialItemType, U32)> := [
    (Polymers, 125), (Electronics, 125), (PowerCells, 125), (Optics, 125),
    (Metals, 125), (Ceramics, 125), (Superconductors, 125), (Nanomaterials, 125)]

  const PACK_TYPE_SPECIAL_ESSENCE_ITEM_TYPE_PROBABILITIES: seq<(EssenceItemType, U32)> :=
    [(Glimmer, 400), (ColorSpark, 350), (GlowSpark, 250)]

  const PACK_TYPE_SPECIAL_EQUIPABLE_ITEM_TYPE_PROBABILITIES: seq<(EquipableItemType, U32)> := [
    (ArmorBase, 250), (ArmorComponent1, 200), (ArmorComponent2, 200), (ArmorComponent3, 200),
    (WeaponVersion1, 50), (WeaponVersion2, 50), (WeaponVersion3, 50)]

  const PACK_TYPE_SPECIAL_BLUEPRINT_ITEM_TYPE_PROBABILITIES: seq<(BlueprintItemType, U32)> :=
    [(BlueprintItemType.Blueprint, 1000)]

  const PACK_TYPE_SPECIAL_SPECIAL_ITEM_TYPE_PROBABILITIES: seq<(SpecialItemType, U32)> :=
    [(SpecialItemType.Special, 1000)]

  // ----- slots and pet types -----

  const ARMOR_SLOT_PROBABILITIES: seq<(SlotType, U32)> := [
    (Head, 170), (Breast, 170), (ArmFront, 165), (ArmBack, 165), (LegFront, 165), (LegBack, 165)]

  const WEAPON_SLOT_PROBABILITIES: seq<(SlotType, U32)> := [(WeaponFront, 500), (WeaponBack, 500)]

  const PET_TYPE_PROBABILITIES: seq<(PetType, U32)> := [
    (TankyBulldog, 150), (FoxishDude, 150), (WierdFerry, 150), (FireDino, 150),
    (BigHybrid, 150), (GiantWoodStick, 150), (CrazyDude, 100)]

  // ----- the tables by pack -----

  function ItemTable(pack: PackType): seq<(ItemType, U32)>
  {
    TableFor(pack, PACK_TYPE_MATERIAL_ITEM_PROBABILITIES, PACK_TYPE_EQUIPMENT_ITEM_PROBABILITIES,
             PACK_TYPE_SPECIAL_ITEM_PROBABILITIES)
  }

  function PetTable(pack: PackType): seq<(PetItemType, U32)>
  {
    TableFor(pack, PACK_TYPE_MATERIAL_PET_ITEM_TYPE_PROBABILITIES, PACK_TYPE_EQUIPMENT_PET_ITEM_TYPE_PROBABILITIES,
             PACK_TYPE_SPECIAL_PET_ITEM_TYPE_PROBABILITIES)
  }

  function MaterialTable(pack: PackType): seq<(MaterialItemType, U32)>
  {
    TableFor(pack, PACK_TYPE_MATERIAL_MATERIAL_ITEM_TYPE_PROBABILITIES,
             PACK_TYPE_EQUIPMENT_MATERIAL_ITEM_TYPE_PROBABILITIES, PACK_TYPE_SPECIAL_MATERIAL_ITEM_TYPE_PROBABILITIES)
  }

  function EssenceTable(pack: PackType): seq<(EssenceItemType, U32)>
  {
    TableFor(pack, PACK_TYPE_MATERIAL_ESSENCE_ITEM_TYPE_PROBABILITIES,
             PACK_TYPE_EQUIPMENT_ESSENCE_ITEM_TYPE_PROBABILITIES, PACK_TYPE_SPECIAL_ESSENCE_ITEM_TYPE_PROBABILITIES)
  }

  function EquipableTable(pack: PackType): seq<(EquipableItemType, U32)>
  {
    TableFor(pack, PACK_TYPE_MATERIAL_EQUIPABLE_ITEM_TYPE_PROBABILITIES,
             PACK_TYPE_EQUIPMENT_EQUIPABLE_ITEM_TYPE_PROBABILITIES, PACK_TYPE_SPECIAL_EQUIPABLE_ITEM_TYPE_PROBABILITIES)
  }

  function BlueprintTable(pack: PackType): seq<(BlueprintItemType, U32)>
  {
    TableFor(pack, PACK_TYPE_MATERIAL_BLUEPRINT_ITEM_TYPE_PROBABILITIES,
             PACK_TYPE_EQUIPMENT_BLUEPRINT_ITEM_TYPE_PROBABILITIES, PACK_TYPE_SPECIAL_BLUEPRINT_ITEM_TYPE_PROBABILITIES)
  }

  function SpecialTable(pack: PackType): seq<(SpecialItemType, U32)>
  {
    TableFor(pack, PACK_TYPE_MATERIAL_SPECIAL_ITEM_TYPE_PROBABILITIES,
             PACK_TYPE_EQUIPMENT_SPECIAL_ITEM_TYPE_PROBABILITIES, PACK_TYPE_SPECIAL_SPECIAL_ITEM_TYPE_PROBABILITIES)
  }

  /** The weights of every item-type table sum to 1000. */
  lemma ItemTablesSumToOneThousand(pack: PackType)
    ensures Total(ItemTable(pack), |ItemTable(pack)|) == 1000
  {
    TotalOfShortTable(ItemTable(pack));
  }

  /** The weights of every sub-type table of every pack sum to 1000. */
  lemma SubTypeTablesSumToOneThousand(pack: PackType)
    ensures Total(PetTable(pack), |PetTable(pack)|) == 1000
    ensures Total(MaterialTable(pack), |MaterialTable(pack)|) == 1000
    ensures Total(EssenceTable(pack), |EssenceTable(pack)|) == 1000
    ensures Total(EquipableTable(pack), |EquipableTable(pack)|) == 1000
    ensures Total(BlueprintTable(pack), |BlueprintTable(pack)|) == 1000
    ensures Total(SpecialTable(pack), |SpecialTable(pack)|) == 1000
  {
    TotalOfShortTable(PetTable(pack));
    TotalOfShortTable(MaterialTable(pack));
    TotalOfShortTable(EssenceTable(pack));
    TotalOfShortTable(EquipableTable(pack));
    TotalOfShortTable(BlueprintTable(pack));
    TotalOfShortTable(SpecialTable(pack));
  }

  /** The slot and pet-type tables sum to 1000. */
  lemma SlotAndPetTypeTablesSumToOneThousand()
    ensures Total(ARMOR_SLOT_PROBABILITIES, |ARMOR_SLOT_PROBABILITIES|) == 1000
    ensures Total(WEAPON_SLOT_PROBABILITIES, |WEAPON_SLOT_PROBABILITIES|) == 1000
    ensures Total(PET_TYPE_PROBABILITIES, |PET_TYPE_PROBABILITIES|) == 1000
  {
    TotalOfShortTable(ARMOR_SLOT_PROBABILITIES);
    TotalOfShortTable(WEAPON_SLOT_PROBABILITIES);
    TotalOfShortTable(PET_TYPE_PROBABILITIES);
  }

  /** No roll (a roll is at least 1) gives a blueprint or a special item: both have weight 0. */
  lemma NeverRollsBlueprintOrSpecial(pack: PackType, roll: nat)
    requires 1 <= roll
    ensures Rolled(ItemTable(pack), roll, ItemType.Pet) !in {ItemType.Blueprint, ItemType.Special}
  {
    var table := ItemTable(pack);
    ItemTablesSumToOneThousand(pack);
    if roll <= 1000 {
      RolledSlotHasWeight(table, roll, ItemType.Pet);
    } else {
      RolledIsFirstReaching(table, roll, ItemType.Pet);
    }
  }

  /** A roll from 1 to 1000 never gives a plain pet: it has weight 0 in every pet table. */
  lemma NeverRollsPlainPet(pack: PackType, roll: nat)
    requires 1 <= roll <= 1000
    ensures Rolled(PetTable(pack), roll, PetItemType.Pet) != PetItemType.Pet
  {
    SubTypeTablesSumToOneThousand(pack);
    RolledSlotHasWeight(PetTable(pack), roll, PetItemType.Pet);
  }

  /** On the special pack every roll from 1 to 1000 gives an egg. */
  lemma SpecialPackPetIsEgg(roll: nat)
    requires 1 <= roll <= 1000
    ensures Rolled(PetTable(PackType.Special), roll, PetItemType.Pet) == Egg
  {
    SubTypeTablesSumToOneThousand(PackType.Special);
    RolledSlotHasWeight(PetTable(PackType.Special), roll, PetItemType.Pet);
  }

  /** The stack probability is 5% of a byte's 256 values, to the nearest whole number. */
  lemma StackProbabilityIsFivePercent()
    ensures 100 * STACK_PROBABILITY - 256 * 5 <= 50 && 256 * 5 - 100 * STACK_PROBABILITY < 50
    ensures MAX_QUANTITY == 8
  {
  }
}
