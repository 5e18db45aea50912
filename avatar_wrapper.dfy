/**
 * `AvatarWrapper` (tools/v2): a second copy of the DNA codec, written with
 * the source's own shifts and masks instead of nibble arithmetic. Each
 * operation is proved to agree with `AvatarUtils`, so every property proved
 * there (round trips, the untouched sibling nibble, the shared class-type
 * nibble, the spec-byte and progress ranges, the writes that always panic)
 * holds of this copy as well.
 */
module AvatarWrapper {
  import opened Bits
  import opened TypesV2
  import opened Avatars
  import opened Outcomes
  import opened AvatarUtils

  /** `read_dna_strand`: the byte, the byte shifted right by four, or the byte masked with `0x0F`. */
  function ReadDnaStrand(avatar: Avatar, position: nat, byteType: ByteType): (r: Byte)
    requires position < |avatar.dna|
    ensures byteType != Full ==> r < 16
    ensures r == AvatarUtils.ReadDnaAt(avatar.dna, position, byteType)
  {
    AvatarUtils.StrandAccessIsMaskArithmetic(avatar.dna, position, 0);
    match byteType
    case Full => avatar.dna[position]
    case High => Shr8(avatar.dna[position], 4)
    case Low => And8(avatar.dna[position], ByteTypeMask(High))
  }

  /**
   * `write_dna_strand`: a high write keeps the byte's low nibble (`& 0x0F`)
   * and ors in the value shifted left by four; a low write keeps the high
   * nibble (`& 0xF0`) and ors in the value's low nibble. It is the strand
   * write of `AvatarUtils`.
   */
  function WriteDnaStrand(avatar: Avatar, position: nat, byteType: ByteType, value: Byte): (r: Avatar)
    requires position < |avatar.dna|
    ensures r == AvatarUtils.WriteDnaStrand(avatar, position, byteType, value)
  {
    AvatarUtils.StrandAccessIsMaskArithmetic(avatar.dna, position, value);
    var b := avatar.dna[position];
    match byteType
    case Full => avatar.(dna := avatar.dna[position := value])
    case High => avatar.(dna := avatar.dna[position := Or8(And8(b, ByteTypeMask(High)), Shl8(value, 4))])
    case Low => avatar.(dna := avatar.dna[position := Or8(And8(b, ByteTypeMask(Low)), And8(value, ByteTypeMask(High)))])
  }

  /** `read_attribute`, by this copy's own table of strands. */
  function ReadAttribute(avatar: Avatar, attribute: AvatarUtils.AvatarAttributes): (r: Byte)
    requires |avatar.dna| >= AvatarUtils.ATTRIBUTE_BYTES
    ensures r == AvatarUtils.ReadAttribute(avatar, attribute)
  {
    match attribute
    case AttrItemType => ReadDnaStrand(avatar, 0, High)
    case AttrItemSubType => ReadDnaStrand(avatar, 0, Low)
    case AttrClassType1 => ReadDnaStrand(avatar, 1, High)
    case AttrClassType2 => ReadDnaStrand(avatar, 1, High)
    case AttrCustomType1 => ReadDnaStrand(avatar, 2, High)
    case AttrCustomType2 => ReadDnaStrand(avatar, 4, Full)
    case AttrRarityType => ReadDnaStrand(avatar, 2, Low)
    case AttrQuantity => ReadDnaStrand(avatar, 3, Full)
  }

  /** `write_attribute`, by this copy's own table of strands. */
  function WriteAttribute(avatar: Avatar, attribute: AvatarUtils.AvatarAttributes, value: Byte): (r: Avatar)
    requires |avatar.dna| >= AvatarUtils.ATTRIBUTE_BYTES
    ensures r == AvatarUtils.WriteAttribute(avatar, attribute, value)
  {
    match attribute
    case AttrItemType => WriteDnaStrand(avatar, 0, High, value)
    case AttrItemSubType => WriteDnaStrand(avatar, 0, Low, value)
    case AttrClassType1 => WriteDnaStrand(avatar, 1, High, value)
    case AttrClassType2 => WriteDnaStrand(avatar, 1, High, value)
    case AttrCustomType1 => WriteDnaStrand(avatar, 2, High, value)
    case AttrCustomType2 => WriteDnaStrand(avatar, 4, Full, value)
    case AttrRarityType => WriteDnaStrand(avatar, 2, Low, value)
    case AttrQuantity => WriteDnaStrand(avatar, 3, Full, value)
  }

  /** `is_same_type_as`: true iff the two item type nibbles are equal; nothing else is compared. */
  predicate IsSameTypeAs(avatar: Avatar, other: Avatar)
    requires |avatar.dna| >= AvatarUtils.ATTRIBUTE_BYTES && |other.dna| >= AvatarUtils.ATTRIBUTE_BYTES
  {
    ReadAttribute(avatar, AttrItemType) == ReadAttribute(other, AttrItemType)
  }

  /** Two avatars are of the same type exactly when the high nibbles of their first DNA bytes agree. */
  lemma SameTypeIsFirstHighNibble(avatar: Avatar, other: Avatar)
    requires |avatar.dna| >= AvatarUtils.ATTRIBUTE_BYTES && |other.dna| >= AvatarUtils.ATTRIBUTE_BYTES
    ensures IsSameTypeAs(avatar, other) <==> avatar.dna[0] / 16 == other.dna[0] / 16
  {
    AvatarUtils.AttributeLayout(avatar);
    AvatarUtils.AttributeLayout(other);
  }

  /** `read_spec_byte`: spec byte N is DNA byte 4 + N. */
  function ReadSpecByte(avatar: Avatar, specByte: AvatarUtils.SpecByte): (r: Byte)
    requires |avatar.dna| >= AvatarUtils.SPEC_BYTES_END
    ensures r == avatar.dna[4 + specByte] == AvatarUtils.ReadSpecByte(avatar, specByte)
  {
    ReadDnaStrand(avatar, 4 + specByte, Full)
  }

  /** `write_spec_byte`: a full write of DNA byte 4 + N. */
  function WriteSpecByte(avatar: Avatar, specByte: AvatarUtils.SpecByte, value: Byte): (r: Avatar)
    requires |avatar.dna| >= AvatarUtils.SPEC_BYTES_END
    ensures r == AvatarUtils.WriteSpecByte(avatar, specByte, value)
  {
    WriteDnaStrand(avatar, 4 + specByte, Full, value)
  }

  /**
   * `read_full_spec_bytes`: `dna[5..21]` copied into a sixteen-byte array (the
   * lengths agree, so the copy cannot panic); spec byte N is at index N - 1.
   */
  function ReadFullSpecBytes(avatar: Avatar): (r: seq<Byte>)
    requires |avatar.dna| >= AvatarUtils.SPEC_BYTES_END
    ensures |r| == 16
    ensures forall n: AvatarUtils.SpecByte :: r[n - 1] == ReadSpecByte(avatar, n)
  {
    avatar.dna[5..21]
  }

  /** `write_full_spec_bytes`: sixteen bytes copied into the eleven of `dna[5..16]`, a length mismatch. */
  function WriteFullSpecBytes(avatar: Avatar, value: seq<Byte>): (r: Result<Avatar>)
    requires |avatar.dna| >= AvatarUtils.SPEC_BYTES_END && |value| == 16
    ensures r == Err(SliceLengthMismatch)
  {
    match AvatarUtils.CopyIntoSlice(avatar.dna, 5, 16, value)
    case Ok(dna) => Ok(avatar.(dna := dna))
    case Err(e) => Err(e)
  }

  /** `read_progress_array`: `dna[21..32]` copied into an eleven-byte array. */
  function ReadProgressArray(avatar: Avatar): (r: seq<Byte>)
    requires AvatarUtils.HasV2Layout(avatar)
    ensures |r| == AvatarUtils.PROGRESS_ARRAY_LENGTH
    ensures forall i | 0 <= i < AvatarUtils.PROGRESS_ARRAY_LENGTH :: r[i] == avatar.dna[AvatarUtils.SPEC_BYTES_END + i]
  {
    avatar.dna[21..32]
  }

  /** `write_progress_array`: a copy into the inverted range `dna[21..11]`. */
  function WriteProgressArray(avatar: Avatar, value: seq<Byte>): (r: Result<Avatar>)
    requires AvatarUtils.HasV2Layout(avatar) && |value| == AvatarUtils.PROGRESS_ARRAY_LENGTH
    ensures r == Err(SliceRangeInverted)
  {
    match AvatarUtils.CopyIntoSlice(avatar.dna, 21, 11, value)
    case Ok(dna) => Ok(avatar.(dna := dna))
    case Err(e) => Err(e)
  }

  /**
   * Through this copy, a nibble write reads back as the value's low nibble
   * and keeps the byte's other nibble, a full write reads back as the value,
   * and no other byte changes.
   */
  lemma StrandWriteRoundTrip(avatar: Avatar, position: nat, byteType: ByteType, value: Byte)
    requires position < |avatar.dna|
    ensures var r := WriteDnaStrand(avatar, position, byteType, value);
            ReadDnaStrand(r, position, byteType) == (if byteType == Full then value else value % 16) &&
            (byteType == High ==> ReadDnaStrand(r, position, Low) == ReadDnaStrand(avatar, position, Low)) &&
            (byteType == Low ==> ReadDnaStrand(r, position, High) == ReadDnaStrand(avatar, position, High)) &&
            |r.dna| == |avatar.dna| &&
            forall i | 0 <= i < |avatar.dna| && i != position :: r.dna[i] == avatar.dna[i]
  {
    AvatarUtils.WriteDnaAtRoundTrip(avatar.dna, position, byteType, value);
  }

  /** Class types 1 and 2 are one nibble here too: they read equal, and writing one writes the other. */
  lemma ClassTypesShareANibble(avatar: Avatar, value: Byte)
    requires |avatar.dna| >= AvatarUtils.ATTRIBUTE_BYTES
    ensures ReadAttribute(avatar, AttrClassType1) == ReadAttribute(avatar, AttrClassType2)
    ensures WriteAttribute(avatar, AttrClassType1, value) == WriteAttribute(avatar, AttrClassType2, value)
    ensures ReadAttribute(WriteAttribute(avatar, AttrClassType2, value), AttrClassType1) == value % 16
  {
    AvatarUtils.ClassTypesShareANibble(avatar, value);
  }
}
