/**
 * The minter of the mint iteration (mint/v2/mod.rs). It rolls the item type
 * of the pack with the slot roller and then stops at an unfinished step, so
 * it never mints. Its `roll_number` and `roll_on` are the slot roller's,
 * line for line; the random hash the roll reads is an input.
 */
module MintV2 {
  import opened Bits
  import opened TypesV2
  import opened Avatars
  import opened Outcomes
  import opened SlotRoller
  import MintConstants

  /**
   * `roll_for_item_type`: a roll on the item-type table of the pack. The
   * tables give blueprints and specials no weight, so neither is ever rolled.
   */
  method RollForItemType(packType: PackType, randomHash: seq<Byte>) returns (itemType: ItemType)
    requires |randomHash| >= 4
    ensures itemType == Rolled(MintConstants.ItemTable(packType), RollNumber(randomHash), ItemType.Pet)
    ensures itemType != ItemType.Blueprint && itemType != ItemType.Special
  {
    itemType := RollOn(MintConstants.ItemTable(packType), ItemType.Pet, randomHash);
    MintConstants.NeverRolledItems(packType, RollNumber(randomHash));
  }

  /** `mint_avatar_set`: the item type is rolled, then `todo!()` is reached. */
  method MintAvatarSet(packType: PackType, randomHash: seq<Byte>) returns (r: Result<seq<Avatar>>)
    requires |randomHash| >= 4
    ensures r == Err(Unimplemented)
  {
    var rolledItemType := RollForItemType(packType, randomHash);
    r := Err(Unimplemented);
  }
}
