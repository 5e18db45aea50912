/**
 * The attribute block: the first `ATTRIBUTE_BYTES` bytes of a V2 DNA seen
 * as the attributes kept there. A chain of attribute writes is followed on
 * this view one field at a time, which is how the builder, the mutators and
 * the forges reason about the avatars they assemble.
 */
module AttributeBlock {
  import opened Bits
  import opened TypesV2
  import opened Avatars
  import opened AvatarUtils

  /** The high nibble of a byte, counted as the number of whole sixteens in it. */
  function HighNibble(b: Byte): (h: Byte)
    ensures 16 * h <= b
    decreases b
  {
    if b < 16 then 0 else 1 + HighNibble(b - 16)
  }

  /** The low nibble of a byte, what is left once every sixteen is taken out. */
  function LowNibble(b: Byte): (l: Byte)
    ensures l < 16 && l <= b
    decreases b
  {
    if b < 16 then b else LowNibble(b - 16)
  }

  /** The two nibbles are the quotient and the remainder by 16. */
  lemma {:induction false} NibblesAreDivMod(b: Byte)
    ensures HighNibble(b) == b / 16 && LowNibble(b) == b % 16
    decreases b
  {
    if b >= 16 {
      NibblesAreDivMod(b - 16);
    }
  }

  /**
   * Bytes 0 to 4 of the DNA: item type and sub-type share byte 0, the class
   * types share the high nibble of byte 1 (its low nibble holds no
   * attribute), custom type 1 and rarity share byte 2, the quantity and
   * custom type 2 have bytes 3 and 4.
   */
  datatype Block = Block(
    itemType: Byte, itemSubType: Byte, classType: Byte, unusedNibble: Byte,
    customType1: Byte, rarityType: Byte, quantity: Byte, customType2: Byte)

  function BlockOf(avatar: Avatar): Block
    requires |avatar.dna| >= ATTRIBUTE_BYTES
  {
    var dna := avatar.dna;
    Block(HighNibble(dna[0]), LowNibble(dna[0]), HighNibble(dna[1]), LowNibble(dna[1]),
          HighNibble(dna[2]), LowNibble(dna[2]), dna[3], dna[4])
  }

  /** Where `read_attribute` finds each attribute in the block. */
  function BlockRead(block: Block, attribute: AvatarAttributes): Byte
  {
    match attribute
    case AttrItemType => block.itemType
    case AttrItemSubType => block.itemSubType
    case AttrClassType1 => block.classType
    case AttrClassType2 => block.classType
    case AttrCustomType1 => block.customType1
    case AttrRarityType => block.rarityType
    case AttrQuantity => block.quantity
    case AttrCustomType2 => block.customType2
  }

  /** What `write_attribute` does to the block: one field replaced, a nibble field by the value's low nibble. */
  function BlockWrite(block: Block, attribute: AvatarAttributes, value: Byte): Block
  {
    match attribute
    case AttrItemType => block.(itemType := LowNibble(value))
    case AttrItemSubType => block.(itemSubType := LowNibble(value))
    case AttrClassType1 => block.(classType := LowNibble(value))
    case AttrClassType2 => block.(classType := LowNibble(value))
    case AttrCustomType1 => block.(customType1 := LowNibble(value))
    case AttrRarityType => block.(rarityType := LowNibble(value))
    case AttrQuantity => block.(quantity := value)
    case AttrCustomType2 => block.(customType2 := value)
  }

  /** Every attribute read is a field of the block. */
  lemma ReadsFromBlock(avatar: Avatar)
    requires |avatar.dna| >= ATTRIBUTE_BYTES
    ensures forall attribute :: ReadAttribute(avatar, attribute) == BlockRead(BlockOf(avatar), attribute)
  {
    AttributeLayout(avatar);
    NibblesAreDivMod(avatar.dna[0]);
    NibblesAreDivMod(avatar.dna[1]);
    NibblesAreDivMod(avatar.dna[2]);
  }

  /**
   * `write_attribute` seen on the block is `BlockWrite`, and it leaves every
   * byte after the block as it was.
   */
  lemma WriteAttributeOnBlock(avatar: Avatar, attribute: AvatarAttributes, value: Byte)
    requires |avatar.dna| >= ATTRIBUTE_BYTES
    ensures var r := WriteAttribute(avatar, attribute, value);
            BlockOf(r) == BlockWrite(BlockOf(avatar), attribute, value) &&
            r.dna[ATTRIBUTE_BYTES..] == avatar.dna[ATTRIBUTE_BYTES..]
  {
    var r := WriteAttribute(avatar, attribute, value);
    var (position, byteType) := AttributeStrand(attribute);
    AttributeLayout(avatar);
    AttributeLayout(r);
    NibblesAreDivMod(avatar.dna[0]);
    NibblesAreDivMod(avatar.dna[1]);
    NibblesAreDivMod(avatar.dna[2]);
    NibblesAreDivMod(r.dna[0]);
    NibblesAreDivMod(r.dna[1]);
    NibblesAreDivMod(r.dna[2]);
    NibblesAreDivMod(value);
    WriteDnaAtRoundTrip(avatar.dna, position, byteType, value);
    assert r.dna[ATTRIBUTE_BYTES..] == avatar.dna[ATTRIBUTE_BYTES..];
  }

  /** The block is the whole of bytes 0 to 4: two avatars with the same block agree there. */
  lemma BlockDeterminesBytes(a: Avatar, b: Avatar)
    requires |a.dna| >= ATTRIBUTE_BYTES && |b.dna| >= ATTRIBUTE_BYTES
    requires BlockOf(a) == BlockOf(b)
    ensures a.dna[..ATTRIBUTE_BYTES] == b.dna[..ATTRIBUTE_BYTES]
  {
    forall i | 0 <= i < 3
      ensures a.dna[i] == b.dna[i]
    {
      NibblesAreDivMod(a.dna[i]);
      NibblesAreDivMod(b.dna[i]);
    }
  }

  /** The block reads only bytes 0 to 4. */
  lemma BlockReadsFirstBytes(a: Avatar, b: Avatar)
    requires |a.dna| >= ATTRIBUTE_BYTES && |b.dna| >= ATTRIBUTE_BYTES
    requires forall i | 0 <= i < ATTRIBUTE_BYTES :: a.dna[i] == b.dna[i]
    ensures BlockOf(a) == BlockOf(b)
  {
  }
}
