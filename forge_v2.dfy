/**
 * The older V2 forger (forge/v2.rs). Only its classifier has a body: a pet
 * or a material leader stacks with sacrifices of its own item type, and
 * every other leader forges nothing. Its four trait methods are `todo!()`
 * and always panic.
 *
 * The classifier takes wrapped avatars but only reads them, so it is
 * modelled on the avatars themselves; `is_same_type_as` compares the item
 * type nibbles.
 */
module ForgeV2 {
  import opened Bits
  import opened Avatars
  import opened Outcomes
  import opened AvatarUtils

  /** The wrapped avatar's `is_same_type_as`: the item type nibbles are equal. */
  predicate IsSameTypeAs(avatar: Avatar, other: Avatar)
    requires |avatar.dna| >= ATTRIBUTE_BYTES && |other.dna| >= ATTRIBUTE_BYTES
  {
    ReadAttribute(avatar, AttrItemType) == ReadAttribute(other, AttrItemType)
  }

  /** `input_sacrifices.iter().all(|sacrifice| sacrifice.is_same_type_as(&input_leader))`. */
  function AllSameTypeAs(sacrifices: seq<Avatar>, leader: Avatar): bool
    requires |leader.dna| >= ATTRIBUTE_BYTES
    requires forall i | 0 <= i < |sacrifices| :: |sacrifices[i].dna| >= ATTRIBUTE_BYTES
  {
    |sacrifices| == 0 || (IsSameTypeAs(sacrifices[0], leader) && AllSameTypeAs(sacrifices[1..], leader))
  }

  lemma {:induction false} AllSameTypeAsIsForall(sacrifices: seq<Avatar>, leader: Avatar)
    requires |leader.dna| >= ATTRIBUTE_BYTES
    requires forall i | 0 <= i < |sacrifices| :: |sacrifices[i].dna| >= ATTRIBUTE_BYTES
    ensures AllSameTypeAs(sacrifices, leader) <==>
            forall i | 0 <= i < |sacrifices| :: sacrifices[i].dna[0] / 16 == leader.dna[0] / 16
  {
    if |sacrifices| > 0 {
      AllSameTypeAsIsForall(sacrifices[1..], leader);
      assert forall i | 1 <= i < |sacrifices| :: sacrifices[i] == sacrifices[1..][i - 1];
      AttributeLayout(sacrifices[0]);
      AttributeLayout(leader);
    }
  }

  /**
   * `determine_forge_type`: item types 1 (pet) and 2 (material) stack with
   * sacrifices of the same item type; every other item type forges nothing.
   */
  function DetermineForgeType(leader: Avatar, sacrifices: seq<Avatar>): (r: ForgeType)
    requires |leader.dna| >= ATTRIBUTE_BYTES
    requires forall i | 0 <= i < |sacrifices| :: |sacrifices[i].dna| >= ATTRIBUTE_BYTES
    ensures r == Stack || r == None
    ensures r == Stack ==> ReadAttribute(leader, AttrItemType) in {1, 2}
  {
    match ReadAttribute(leader, AttrItemType)
    case 1 => if AllSameTypeAs(sacrifices, leader) then Stack else None
    case 2 => if AllSameTypeAs(sacrifices, leader) then Stack else None
    case 3 => None
    case 4 => None
    case 5 => None
    case 6 => None
    case _ => None
  }

  /**
   * A pet or material leader stacks exactly when every sacrifice has its
   * item type nibble, and so always with no sacrifices; any other leader
   * forges nothing.
   */
  lemma StackIffSameItemType(leader: Avatar, sacrifices: seq<Avatar>)
    requires |leader.dna| >= ATTRIBUTE_BYTES
    requires forall i | 0 <= i < |sacrifices| :: |sacrifices[i].dna| >= ATTRIBUTE_BYTES
    ensures leader.dna[0] / 16 in {1, 2} ==>
              (DetermineForgeType(leader, sacrifices) == Stack <==>
               forall i | 0 <= i < |sacrifices| :: sacrifices[i].dna[0] / 16 == leader.dna[0] / 16)
    ensures leader.dna[0] / 16 in {1, 2} ==> DetermineForgeType(leader, []) == Stack
    ensures leader.dna[0] / 16 !in {1, 2} ==> DetermineForgeType(leader, sacrifices) == None
  {
    AllSameTypeAsIsForall(sacrifices, leader);
    AttributeLayout(leader);
  }

  /** `forge_with`, `can_be_forged`, `min_tier` and `last_variation`: each body is `todo!()`. */
  function ForgeWith(leader: ForgeItem, sacrifices: seq<ForgeItem>): (r: Result<(LeaderForgeOutput, seq<ForgeOutput>)>)
    ensures r.Err? && IsPanic(r.error)
  {
    Err(Unimplemented)
  }

  function CanBeForged(leader: ForgeItem, sacrifices: seq<ForgeItem>): (r: Result<()>)
    ensures r.Err? && IsPanic(r.error)
  {
    Err(Unimplemented)
  }

  function MinTier(target: Avatar): (r: Result<Byte>)
    ensures r.Err? && IsPanic(r.error)
  {
    Err(Unimplemented)
  }

  function LastVariation(target: Avatar): (r: Result<Byte>)
    ensures r.Err? && IsPanic(r.error)
  {
    Err(Unimplemented)
  }
}
