/**
 * `WrappedAvatar` (avatar/wrapped_avatar.rs): the third copy of the DNA
 * codec, an object holding the avatar it reads and updates in place. Its
 * reads are functions of the held avatar and its writes replace it; each is
 * proved to be the corresponding operation of `AvatarUtils`.
 */
module WrappedAvatars {
  import opened Bits
  import opened TypesV2
  import opened Avatars
  import opened Outcomes
  import opened AvatarUtils

  class WrappedAvatar {
    /** The wrapped avatar; the source holds it by `&mut`. */
    var inner: Avatar

    /** `WrappedAvatar::from`. */
    constructor (avatar: Avatar)
      ensures inner == avatar
    {
      inner := avatar;
    }

    /** `is_same_type_as`: only the item type nibbles are compared. */
    predicate IsSameTypeAs(other: WrappedAvatar)
      reads this, other
      requires |inner.dna| >= ATTRIBUTE_BYTES && |other.inner.dna| >= ATTRIBUTE_BYTES
    {
      ReadAttribute(AttrItemType) == other.ReadAttribute(AttrItemType)
    }

    /** `read_dna_strand`, by shift and mask; it is `read_dna_at` of `AvatarUtils`. */
    function ReadDnaStrand(position: nat, byteType: ByteType): (r: Byte)
      reads this
      requires position < |inner.dna|
      ensures byteType != Full ==> r < 16
      ensures r == ReadDnaAt(inner.dna, position, byteType)
    {
      StrandAccessIsMaskArithmetic(inner.dna, position, 0);
      match byteType
      case Full => inner.dna[position]
      case High => Shr8(inner.dna[position], 4)
      case Low => And8(inner.dna[position], ByteTypeMask(High))
    }

    /**
     * `write_dna_strand`: the held avatar's byte at `position` is rewritten
     * by mask and or; the result is the strand write of `AvatarUtils`, so the
     * other nibble and every other byte are kept.
     */
    method WriteDnaStrand(position: nat, byteType: ByteType, value: Byte)
      requires position < |inner.dna|
      modifies this
      ensures inner == AvatarUtils.WriteDnaStrand(old(inner), position, byteType, value)
    {
      StrandAccessIsMaskArithmetic(inner.dna, position, value);
      var b := inner.dna[position];
      match byteType {
        case Full =>
          inner := inner.(dna := inner.dna[position := value]);
        case High =>
          inner := inner.(dna := inner.dna[position := Or8(And8(b, ByteTypeMask(High)), Shl8(value, 4))]);
        case Low =>
          inner := inner.(dna := inner.dna[position := Or8(And8(b, ByteTypeMask(Low)), And8(value, ByteTypeMask(High)))]);
      }
    }

    /** `read_attribute`, by this copy's own table of strands. */
    function ReadAttribute(attribute: AvatarAttributes): (r: Byte)
      reads this
      requires |inner.dna| >= ATTRIBUTE_BYTES
      ensures r == AvatarUtils.ReadAttribute(inner, attribute)
    {
      match attribute
      case AttrItemType => ReadDnaStrand(0, High)
      case AttrItemSubType => ReadDnaStrand(0, Low)
      case AttrClassType1 => ReadDnaStrand(1, High)
      case AttrClassType2 => ReadDnaStrand(1, High)
      case AttrCustomType1 => ReadDnaStrand(2, High)
      case AttrCustomType2 => ReadDnaStrand(4, Full)
      case AttrRarityType => ReadDnaStrand(2, Low)
      case AttrQuantity => ReadDnaStrand(3, Full)
    }

    /** `write_attribute`, by this copy's own table of strands. */
    method WriteAttribute(attribute: AvatarAttributes, value: Byte)
      requires |inner.dna| >= ATTRIBUTE_BYTES
      modifies this
      ensures inner == AvatarUtils.WriteAttribute(old(inner), attribute, value)
    {
      match attribute {
        case AttrItemType => WriteDnaStrand(0, High, value);
        case AttrItemSubType => WriteDnaStrand(0, Low, value);
        case AttrClassType1 => WriteDnaStrand(1, High, value);
        case AttrClassType2 => WriteDnaStrand(1, High, value);
        case AttrCustomType1 => WriteDnaStrand(2, High, value);
        case AttrCustomType2 => WriteDnaStrand(4, Full, value);
        case AttrRarityType => WriteDnaStrand(2, Low, value);
        case AttrQuantity => WriteDnaStrand(3, Full, value);
      }
    }

    /** `read_full_spec_bytes`: `dna[5..21]`, spec byte N at index N - 1. */
    function ReadFullSpecBytes(): (r: seq<Byte>)
      reads this
      requires |inner.dna| >= SPEC_BYTES_END
      ensures |r| == 16
      ensures forall n: SpecByte :: r[n - 1] == ReadSpecByte(n)
    {
      inner.dna[5..21]
    }

    /** `read_spec_byte`: spec byte N is DNA byte 4 + N. */
    function ReadSpecByte(specByte: SpecByte): (r: Byte)
      reads this
      requires |inner.dna| >= SPEC_BYTES_END
      ensures r == inner.dna[4 + specByte] == AvatarUtils.ReadSpecByte(inner, specByte)
    {
      ReadDnaStrand(4 + specByte, Full)
    }

    /**
     * `write_full_spec_bytes`: the sixteen bytes do not fit the eleven of
     * `dna[5..16]`, so the copy panics and nothing is written.
     */
    method WriteFullSpecBytes(value: seq<Byte>) returns (r: Result<()>)
      requires |inner.dna| >= SPEC_BYTES_END && |value| == 16
      ensures r == Err(SliceLengthMismatch)
    {
      match CopyIntoSlice(inner.dna, 5, 16, value) {
        case Ok(dna) =>
          r := Ok(());
        case Err(e) =>
          r := Err(e);
      }
    }

    /** `write_spec_byte`: a full write of DNA byte 4 + N. */
    method WriteSpecByte(specByte: SpecByte, value: Byte)
      requires |inner.dna| >= SPEC_BYTES_END
      modifies this
      ensures inner == AvatarUtils.WriteSpecByte(old(inner), specByte, value)
    {
      WriteDnaStrand(4 + specByte, Full, value);
    }

    /** `read_progress_array`: `dna[21..32]`. */
    function ReadProgressArray(): (r: seq<Byte>)
      reads this
      requires HasV2Layout(inner)
      ensures |r| == PROGRESS_ARRAY_LENGTH
      ensures forall i | 0 <= i < PROGRESS_ARRAY_LENGTH :: r[i] == inner.dna[SPEC_BYTES_END + i]
    {
      inner.dna[21..32]
    }

    /** `write_progress_array`: the range `21..11` is inverted, so the copy panics and nothing is written. */
    method WriteProgressArray(value: seq<Byte>) returns (r: Result<()>)
      requires HasV2Layout(inner) && |value| == PROGRESS_ARRAY_LENGTH
      ensures r == Err(SliceRangeInverted)
    {
      match CopyIntoSlice(inner.dna, 21, 11, value) {
        case Ok(dna) =>
          r := Ok(());
        case Err(e) =>
          r := Err(e);
      }
    }
  }

  /**
   * A nibble written through the wrapper reads back as the value's low
   * nibble while the byte's other nibble and every other byte keep their
   * values; a full write reads back as the value.
   */
  method NibbleWriteRoundTrip(w: WrappedAvatar, position: nat, byteType: ByteType, value: Byte)
    returns (readBack: Byte, sibling: Byte)
    requires position < |w.inner.dna| && byteType != Full
    modifies w
    ensures readBack == value % 16
    ensures byteType == High ==> sibling == ReadDnaAt(old(w.inner.dna), position, Low)
    ensures byteType == Low ==> sibling == ReadDnaAt(old(w.inner.dna), position, High)
    ensures |w.inner.dna| == |old(w.inner.dna)|
    ensures forall i | 0 <= i < |w.inner.dna| && i != position :: w.inner.dna[i] == old(w.inner.dna[i])
  {
    ghost var before := w.inner;
    w.WriteDnaStrand(position, byteType, value);
    WriteDnaAtRoundTrip(before.dna, position, byteType, value);
    readBack := w.ReadDnaStrand(position, byteType);
    sibling := w.ReadDnaStrand(position, if byteType == High then Low else High);
  }

  /** Through the wrapper too, class types 1 and 2 are one nibble: writing type 2 sets what type 1 reads. */
  method ClassTypesShareANibble(w: WrappedAvatar, value: Byte) returns (classType1: Byte, classType2: Byte)
    requires |w.inner.dna| >= ATTRIBUTE_BYTES
    modifies w
    ensures classType1 == classType2 == value % 16
  {
    w.WriteAttribute(AttrClassType2, value);
    classType1 := w.ReadAttribute(AttrClassType1);
    classType2 := w.ReadAttribute(AttrClassType2);
  }
}
