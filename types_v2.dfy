/**
 * The closed enumerations of the V2 avatar engine and their byte codes.
 *
 * Every enumeration is declared in the order of its codes, so Rust's derived
 * order on it is the order of the codes; `into_byte` is the code, and
 * `from_byte` maps each code back to its variant and every other byte to the
 * `#[default]` variant, which is always the first one.
 */
module TypesV2 {
  import opened Bits

  /** A nibble value, `HexType`; its byte is the value itself. */
  type Hex = x: int | 0 <= x < 16
  /** A three-bit value, `NibbleType`; its byte is the value itself. */
  type Nibble = x: int | 0 <= x < 8

  /** How much of a DNA byte a read or write addresses. */
  datatype ByteType = Full | High | Low

  /** The discriminant of `ByteType`: the bits of the byte the strand KEEPS on a write. */
  function ByteTypeMask(t: ByteType): (m: Byte)
    ensures t == High ==> m == 0x0F && m + 0xF0 == 0xFF
    ensures t == Low ==> m == 0xF0
    ensures t == Full ==> m == 0xFF
  {
    match t
    case Full => 0xFF
    case High => 0x0F
    case Low => 0xF0
  }

  datatype ItemType = Pet | Material | Essence | Equipable | Blueprint | Special

  function ItemTypeIntoByte(t: ItemType): (b: Byte)
    ensures 1 <= b <= 6
    ensures ItemTypeFromByte(b) == t
  {
    match t
    case Pet => 1
    case Material => 2
    case Essence => 3
    case Equipable => 4
    case Blueprint => 5
    case Special => 6
  }

  function ItemTypeFromByte(b: Byte): (t: ItemType)
    ensures !(1 <= b <= 6) ==> t == ItemType.Pet
  {
    match b
    case 1 => ItemType.Pet
    case 2 => Material
    case 3 => Essence
    case 4 => Equipable
    case 5 => ItemType.Blueprint
    case 6 => ItemType.Special
    case _ => ItemType.Pet
  }

  datatype RarityType = Common | Uncommon | Rare | Epic | Legendary | Mythical

  function RarityIntoByte(r: RarityType): (b: Byte)
    ensures 1 <= b <= 6
    ensures RarityFromByte(b) == r
  {
    match r
    case Common => 1
    case Uncommon => 2
    case Rare => 3
    case Epic => 4
    case Legendary => 5
    case Mythical => 6
  }

  function RarityFromByte(b: Byte): (r: RarityType)
    ensures !(1 <= b <= 6) ==> r == Common
  {
    match b
    case 1 => Common
    case 2 => Uncommon
    case 3 => Rare
    case 4 => Epic
    case 5 => Legendary
    case 6 => Mythical
    case _ => Common
  }

  /** Position of a rarity in its declaration, which Rust's derived `Ord` compares. */
  function RarityOrdinal(r: RarityType): nat
  {
    match r
    case Common => 0
    case Uncommon => 1
    case Rare => 2
    case Epic => 3
    case Legendary => 4
    case Mythical => 5
  }

  /** The derived order on rarities is the order of their codes. */
  lemma RarityOrderFollowsCodes(a: RarityType, b: RarityType)
    ensures RarityOrdinal(a) < RarityOrdinal(b) <==> RarityIntoByte(a) < RarityIntoByte(b)
    ensures RarityIntoByte(a) == RarityOrdinal(a) + 1
  {
  }

  datatype PetItemType = Pet | PetPart | Egg

  function PetItemIntoByte(t: PetItemType): (b: Byte)
    ensures 1 <= b <= 3
    ensures PetItemFromByte(b) == t
  {
    match t
    case Pet => 1
    case PetPart => 2
    case Egg => 3
  }

  function PetItemFromByte(b: Byte): (t: PetItemType)
    ensures !(1 <= b <= 3) ==> t == PetItemType.Pet
  {
    match b
    case 1 => PetItemType.Pet
    case 2 => PetPart
    case 3 => Egg
    case _ => PetItemType.Pet
  }

  datatype EquipableItemType =
    | ArmorBase | ArmorComponent1 | ArmorComponent2 | ArmorComponent3
    | WeaponVersion1 | WeaponVersion2 | WeaponVersion3

  function EquipableIntoByte(t: EquipableItemType): (b: Byte)
    ensures 1 <= b <= 7
    ensures EquipableFromByte(b) == t
  {
    match t
    case ArmorBase => 1
    case ArmorComponent1 => 2
    case ArmorComponent2 => 3
    case ArmorComponent3 => 4
    case WeaponVersion1 => 5
    case WeaponVersion2 => 6
    case WeaponVersion3 => 7
  }

  function EquipableFromByte(b: Byte): (t: EquipableItemType)
    ensures !(1 <= b <= 7) ==> t == ArmorBase
  {
    match b
    case 1 => ArmorBase
    case 2 => ArmorComponent1
    case 3 => ArmorComponent2
    case 4 => ArmorComponent3
    case 5 => WeaponVersion1
    case 6 => WeaponVersion2
    case 7 => WeaponVersion3
    case _ => ArmorBase
  }

  /** `EquipableItemType::from_bytes`, a second decoder written out separately. */
  function EquipableFromBytes(value: Byte): (t: EquipableItemType)
    ensures t == EquipableFromByte(value)
  {
    match value
    case 1 => ArmorBase
    case 2 => ArmorComponent1
    case 3 => ArmorComponent2
    case 4 => ArmorComponent3
    case 5 => WeaponVersion1
    case 6 => WeaponVersion2
    case 7 => WeaponVersion3
    case _ => ArmorBase
  }

  predicate IsArmor(item: EquipableItemType)
  {
    item == ArmorBase || item == ArmorComponent1 || item == ArmorComponent2 || item == ArmorComponent3
  }

  predicate IsWeapon(item: EquipableItemType)
  {
    item == WeaponVersion1 || item == WeaponVersion2 || item == WeaponVersion3
  }

  /** Armor and weapon split the equipables: exactly one holds, armor for codes 1-4, weapon for 5-7. */
  lemma ArmorWeaponPartition(item: EquipableItemType)
    ensures IsArmor(item) != IsWeapon(item)
    ensures IsArmor(item) <==> EquipableIntoByte(item) <= 4
    ensures IsWeapon(item) <==> 5 <= EquipableIntoByte(item) <= 7
  {
  }

  datatype PetType = TankyBulldog | FoxishDude | WierdFerry | FireDino | BigHybrid | GiantWoodStick | CrazyDude

  function PetTypeIntoByte(t: PetType): (b: Byte)
    ensures 1 <= b <= 7
    ensures PetTypeFromByte(b) == t
  {
    match t
    case TankyBulldog => 1
    case FoxishDude => 2
    case WierdFerry => 3
    case FireDino => 4
    case BigHybrid => 5
    case GiantWoodStick => 6
    case CrazyDude => 7
  }

  /**
   * The source reads pet types with `from_byte` but declares no decoder for
   * them; this one has the shape of every declared decoder.
   */
  function PetTypeFromByte(b: Byte): (t: PetType)
    ensures !(1 <= b <= 7) ==> t == TankyBulldog
  {
    match b
    case 1 => TankyBulldog
    case 2 => FoxishDude
    case 3 => WierdFerry
    case 4 => FireDino
    case 5 => BigHybrid
    case 6 => GiantWoodStick
    case 7 => CrazyDude
    case _ => TankyBulldog
  }

  datatype PetPartType = Horns | Furs | Wings | Scales | Claws | Sticks | Eyes

  function PetPartIntoByte(t: PetPartType): (b: Byte)
    ensures 1 <= b <= 7
  {
    match t
    case Horns => 1
    case Furs => 2
    case Wings => 3
    case Scales => 4
    case Claws => 5
    case Sticks => 6
    case Eyes => 7
  }

  datatype SlotType = Head | Breast | ArmFront | ArmBack | LegFront | LegBack | WeaponFront | WeaponBack

  function SlotIntoByte(t: SlotType): (b: Byte)
    ensures 1 <= b <= 9 && b != 7
    ensures SlotFromByte(b) == t
  {
    match t
    case Head => 1
    case Breast => 2
    case ArmFront => 3
    case ArmBack => 4
    case LegFront => 5
    case LegBack => 6
    case WeaponFront => 8
    case WeaponBack => 9
  }

  /** Assumed decoder, as for `PetTypeFromByte`: 7 is no slot's code and decodes to the default. */
  function SlotFromByte(b: Byte): (t: SlotType)
    ensures !(1 <= b <= 9 && b != 7) ==> t == Head
  {
    match b
    case 1 => Head
    case 2 => Breast
    case 3 => ArmFront
    case 4 => ArmBack
    case 5 => LegFront
    case 6 => LegBack
    case 8 => WeaponFront
    case 9 => WeaponBack
    case _ => Head
  }

  datatype MaterialItemType =
    | Polymers | Electronics | PowerCells | Optics | Metals | Ceramics | Superconductors | Nanomaterials

  function MaterialIntoByte(t: MaterialItemType): (b: Byte)
    ensures 1 <= b <= 8
    ensures MaterialFromByte(b) == t
  {
    match t
    case Polymers => 1
    case Electronics => 2
    case PowerCells => 3
    case Optics => 4
    case Metals => 5
    case Ceramics => 6
    case Superconductors => 7
    case Nanomaterials => 8
  }

  /** Assumed decoder, as for `PetTypeFromByte`. */
  function MaterialFromByte(b: Byte): (t: MaterialItemType)
    ensures !(1 <= b <= 8) ==> t == Polymers
  {
    match b
    case 1 => Polymers
    case 2 => Electronics
    case 3 => PowerCells
    case 4 => Optics
    case 5 => Metals
    case 6 => Ceramics
    case 7 => Superconductors
    case 8 => Nanomaterials
    case _ => Polymers
  }

  datatype EssenceItemType = Glimmer | ColorSpark | GlowSpark

  function EssenceIntoByte(t: EssenceItemType): (b: Byte)
    ensures 1 <= b <= 3
  {
    match t
    case Glimmer => 1
    case ColorSpark => 2
    case GlowSpark => 3
  }

  datatype BlueprintItemType = Blueprint

  function BlueprintIntoByte(t: BlueprintItemType): (b: Byte)
    ensures b == 1
  {
    1
  }

  datatype SpecialItemType = Special

  function SpecialIntoByte(t: SpecialItemType): (b: Byte)
    ensures b == 1
  {
    1
  }

  /** On every code of its enumeration a decoder inverts the encoder. */
  lemma DecodersInvertEncoders(b: Byte)
    ensures 1 <= b <= 6 ==> ItemTypeIntoByte(ItemTypeFromByte(b)) == b && RarityIntoByte(RarityFromByte(b)) == b
    ensures 1 <= b <= 3 ==> PetItemIntoByte(PetItemFromByte(b)) == b
    ensures 1 <= b <= 7 ==> EquipableIntoByte(EquipableFromByte(b)) == b && PetTypeIntoByte(PetTypeFromByte(b)) == b
    ensures (1 <= b <= 9 && b != 7) ==> SlotIntoByte(SlotFromByte(b)) == b
    ensures 1 <= b <= 8 ==> MaterialIntoByte(MaterialFromByte(b)) == b
  {
  }

  /** Every sub-type code fits in the low nibble of DNA byte 0, and none is 0. */
  lemma SubTypeCodesAreNibbles(
    p: PetItemType, m: MaterialItemType, e: EssenceItemType, q: EquipableItemType,
    s: SlotType, t: PetType, pp: PetPartType)
    ensures 0 < PetItemIntoByte(p) < 16 && 0 < MaterialIntoByte(m) < 16 && 0 < EssenceIntoByte(e) < 16
    ensures 0 < EquipableIntoByte(q) < 16 && 0 < SlotIntoByte(s) < 16 && 0 < PetTypeIntoByte(t) < 16
    ensures 0 < PetPartIntoByte(pp) < 16
  {
  }
}
