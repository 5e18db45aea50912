/**
 * `AvatarUtils`: the layout of a V2 avatar's DNA and the reads and writes
 * the engine does on it.
 *
 *   byte 0        item type (high nibble), item sub-type (low nibble)
 *   byte 1        class type 1 and class type 2 (both the high nibble)
 *   byte 2        custom type 1 (high nibble), rarity (low nibble)
 *   byte 3        quantity
 *   byte 4        custom type 2
 *   bytes 5..20   spec bytes 1..16
 *   bytes 21..31  the progress array
 *
 * An `&mut Avatar` operation is a function from the old avatar to the new one.
 */
module AvatarUtils {
  import opened Bits
  import opened TypesV2
  import opened Avatars
  import opened Outcomes

  datatype AvatarAttributes =
    | AttrItemType | AttrItemSubType | AttrClassType1 | AttrClassType2
    | AttrCustomType1 | AttrCustomType2 | AttrRarityType | AttrQuantity

  /** `AvatarSpecBytes::SpecByteN`, written as `N`. */
  type SpecByte = n: int | 1 <= n <= 16 witness 1

  /** The value of `PROGRESS_VARIATIONS`, which cannot be 0 (it is a divisor). */
  type Variations = n: int | 1 <= n < 256 witness 1

  const ATTRIBUTE_BYTES: nat := 5
  const SPEC_BYTES_END: nat := 21
  const PROGRESS_ARRAY_LENGTH: nat := 11

  /** An avatar whose DNA is long enough for every read and write below. */
  predicate HasV2Layout(avatar: Avatar)
  {
    |avatar.dna| >= V2_DNA_LENGTH
  }

  // ----- strands -----

  /** `read_dna_at`: the whole byte, its high nibble or its low nibble. */
  function ReadDnaAt(dna: seq<Byte>, position: nat, byteType: ByteType): Byte
    requires position < |dna|
  {
    match byteType
    case Full => dna[position]
    case High => dna[position] / 16
    case Low => dna[position] % 16
  }

  /**
   * `write_dna_at`: the byte at `position` gets `value` in the addressed
   * part (a nibble write keeps the low four bits of `value`) and keeps the
   * other nibble; no other byte changes.
   */
  function WriteDnaAt(dna: seq<Byte>, position: nat, byteType: ByteType, value: Byte): (r: seq<Byte>)
    requires position < |dna|
    ensures |r| == |dna|
    ensures forall i | 0 <= i < |dna| && i != position :: r[i] == dna[i]
  {
    var b := dna[position];
    match byteType
    case Full => dna[position := value]
    case High => dna[position := 16 * (value % 16) + b % 16]
    case Low => dna[position := 16 * (b / 16) + value % 16]
  }

  /**
   * The strand reads and writes are the source's mask expressions: a high
   * read shifts right by four, a low read masks with `0x0F`; a write ors the
   * kept part (the byte masked with the strand's discriminant) with the new
   * part (the value shifted into the high nibble, or masked to the low one).
   */
  lemma StrandAccessIsMaskArithmetic(dna: seq<Byte>, position: nat, value: Byte)
    requires position < |dna|
    ensures ReadDnaAt(dna, position, High) == Shr8(dna[position], 4)
    ensures ReadDnaAt(dna, position, Low) == And8(dna[position], ByteTypeMask(High))
    ensures WriteDnaAt(dna, position, High, value)[position]
            == Or8(And8(dna[position], ByteTypeMask(High)), Shl8(value, 4))
    ensures WriteDnaAt(dna, position, Low, value)[position]
            == Or8(And8(dna[position], ByteTypeMask(Low)), And8(value, ByteTypeMask(High)))
  {
    var b := dna[position];
    ShrFour(b);
    AndLowNibble(b);
    OrNibbles(b % 16, value);
    AndLowNibble(value);
    OrKeptHighNibble(b, value % 16);
  }

  /**
   * Reading back a written strand gives the value (its low nibble for a
   * nibble strand), and the other nibble of the byte reads as before.
   */
  lemma WriteDnaAtRoundTrip(dna: seq<Byte>, position: nat, byteType: ByteType, value: Byte)
    requires position < |dna|
    ensures ReadDnaAt(WriteDnaAt(dna, position, byteType, value), position, byteType)
            == if byteType == Full then value else value % 16
    ensures byteType == High ==>
              ReadDnaAt(WriteDnaAt(dna, position, byteType, value), position, Low) == ReadDnaAt(dna, position, Low)
    ensures byteType == Low ==>
              ReadDnaAt(WriteDnaAt(dna, position, byteType, value), position, High) == ReadDnaAt(dna, position, High)
  {
    var b := dna[position];
    match byteType
    case Full =>
    case High => NibblesSplit(value % 16, b % 16);
    case Low => NibblesSplit(b / 16, value % 16);
  }

  function ReadDnaStrand(avatar: Avatar, position: nat, byteType: ByteType): Byte
    requires position < |avatar.dna|
  {
    ReadDnaAt(avatar.dna, position, byteType)
  }

  /** `write_dna_strand`: only the DNA changes, by `write_dna_at`. */
  function WriteDnaStrand(avatar: Avatar, position: nat, byteType: ByteType, value: Byte): (r: Avatar)
    requires position < |avatar.dna|
    ensures r.seasonId == avatar.seasonId && r.version == avatar.version && r.souls == avatar.souls
    ensures r.dna == WriteDnaAt(avatar.dna, position, byteType, value)
  {
    avatar.(dna := WriteDnaAt(avatar.dna, position, byteType, value))
  }

  // ----- attributes -----

  /** The byte and the part of it where each attribute is kept. */
  function AttributeStrand(attribute: AvatarAttributes): (nat, ByteType)
  {
    match attribute
    case AttrItemType => (0, High)
    case AttrItemSubType => (0, Low)
    case AttrClassType1 => (1, High)
    case AttrClassType2 => (1, High)
    case AttrCustomType1 => (2, High)
    case AttrCustomType2 => (4, Full)
    case AttrRarityType => (2, Low)
    case AttrQuantity => (3, Full)
  }

  /** `read_attribute`; a nibble attribute is below 16. */
  function ReadAttribute(avatar: Avatar, attribute: AvatarAttributes): (r: Byte)
    requires |avatar.dna| >= ATTRIBUTE_BYTES
    ensures AttributeStrand(attribute).1 != Full ==> r < 16
  {
    ReadDnaStrand(avatar, AttributeStrand(attribute).0, AttributeStrand(attribute).1)
  }

  /**
   * `write_attribute`: the attribute reads back as the value (its low nibble
   * for a nibble attribute); every attribute kept elsewhere, every other
   * DNA byte, the souls and the identity of the avatar are unchanged.
   */
  function WriteAttribute(avatar: Avatar, attribute: AvatarAttributes, value: Byte): (r: Avatar)
    requires |avatar.dna| >= ATTRIBUTE_BYTES
    ensures r.seasonId == avatar.seasonId && r.version == avatar.version && r.souls == avatar.souls
    ensures |r.dna| == |avatar.dna|
    ensures ReadAttribute(r, attribute) == if AttributeStrand(attribute).1 == Full then value else value % 16
    ensures forall other | AttributeStrand(other) != AttributeStrand(attribute) ::
              ReadAttribute(r, other) == ReadAttribute(avatar, other)
    ensures forall i | 0 <= i < |avatar.dna| && i != AttributeStrand(attribute).0 :: r.dna[i] == avatar.dna[i]
  {
    var (position, byteType) := AttributeStrand(attribute);
    WriteDnaAtRoundTrip(avatar.dna, position, byteType, value);
    WriteKeepsOtherAttributes(avatar, attribute, value);
    WriteDnaStrand(avatar, position, byteType, value)
  }

  /** A strand write leaves every attribute kept in another strand as it was. */
  lemma WriteKeepsOtherAttributes(avatar: Avatar, attribute: AvatarAttributes, value: Byte)
    requires |avatar.dna| >= ATTRIBUTE_BYTES
    ensures var (position, byteType) := AttributeStrand(attribute);
            var r := WriteDnaStrand(avatar, position, byteType, value);
            forall other | AttributeStrand(other) != AttributeStrand(attribute) ::
              ReadAttribute(r, other) == ReadAttribute(avatar, other)
  {
    var (position, byteType) := AttributeStrand(attribute);
    var r := WriteDnaStrand(avatar, position, byteType, value);
    forall other | AttributeStrand(other) != AttributeStrand(attribute)
      ensures ReadAttribute(r, other) == ReadAttribute(avatar, other)
    {
      var (otherPosition, otherType) := AttributeStrand(other);
      if otherPosition == position {
        WriteDnaAtRoundTrip(avatar.dna, position, byteType, value);
      }
    }
  }

  /** Where each attribute sits in the DNA. */
  lemma AttributeLayout(avatar: Avatar)
    requires |avatar.dna| >= ATTRIBUTE_BYTES
    ensures ReadAttribute(avatar, AttrItemType) == avatar.dna[0] / 16
    ensures ReadAttribute(avatar, AttrItemSubType) == avatar.dna[0] % 16
    ensures ReadAttribute(avatar, AttrClassType1) == avatar.dna[1] / 16
    ensures ReadAttribute(avatar, AttrClassType2) == avatar.dna[1] / 16
    ensures ReadAttribute(avatar, AttrCustomType1) == avatar.dna[2] / 16
    ensures ReadAttribute(avatar, AttrRarityType) == avatar.dna[2] % 16
    ensures ReadAttribute(avatar, AttrQuantity) == avatar.dna[3]
    ensures ReadAttribute(avatar, AttrCustomType2) == avatar.dna[4]
  {
  }

  /**
   * Class types 1 and 2 are kept in the same nibble: they always read equal,
   * and writing either one is writing the other.
   */
  lemma ClassTypesShareANibble(avatar: Avatar, value: Byte)
    requires |avatar.dna| >= ATTRIBUTE_BYTES
    ensures ReadAttribute(avatar, AttrClassType1) == ReadAttribute(avatar, AttrClassType2)
    ensures WriteAttribute(avatar, AttrClassType1, value) == WriteAttribute(avatar, AttrClassType2, value)
    ensures ReadAttribute(WriteAttribute(avatar, AttrClassType2, value), AttrClassType1) == value % 16
  {
  }

  predicate HasAttributeWithSameValueAs(avatar: Avatar, other: Avatar, attribute: AvatarAttributes)
    requires |avatar.dna| >= ATTRIBUTE_BYTES && |other.dna| >= ATTRIBUTE_BYTES
  {
    ReadAttribute(avatar, attribute) == ReadAttribute(other, attribute)
  }

  predicate HasAttributeSetWithSameValuesAs(avatar: Avatar, other: Avatar, attributeSet: seq<AvatarAttributes>)
    requires |avatar.dna| >= ATTRIBUTE_BYTES && |other.dna| >= ATTRIBUTE_BYTES
  {
    forall k | 0 <= k < |attributeSet| :: HasAttributeWithSameValueAs(avatar, other, attributeSet[k])
  }

  predicate HasAttributeWithValue(avatar: Avatar, attribute: AvatarAttributes, value: Byte)
    requires |avatar.dna| >= ATTRIBUTE_BYTES
  {
    ReadAttribute(avatar, attribute) == value
  }

  predicate HasAttributeWithValueLowerThan(avatar: Avatar, attribute: AvatarAttributes, lowerThan: Byte)
    requires |avatar.dna| >= ATTRIBUTE_BYTES
  {
    ReadAttribute(avatar, attribute) < lowerThan
  }

  /** `read_attribute_as::<T>`: the attribute decoded by `T::from_byte`. */
  function ReadAttributeAs<T>(avatar: Avatar, attribute: AvatarAttributes, fromByte: Byte -> T): T
    requires |avatar.dna| >= ATTRIBUTE_BYTES
  {
    fromByte(ReadAttribute(avatar, attribute))
  }

  // ----- spec bytes and the progress array -----

  function ReadSpecByte(avatar: Avatar, specByte: SpecByte): Byte
    requires |avatar.dna| >= SPEC_BYTES_END
  {
    ReadDnaStrand(avatar, 4 + specByte, Full)
  }

  function ReadSpecByteAs<T>(avatar: Avatar, specByte: SpecByte, fromByte: Byte -> T): T
    requires |avatar.dna| >= SPEC_BYTES_END
  {
    fromByte(ReadSpecByte(avatar, specByte))
  }

  /**
   * `write_spec_byte`: the spec byte reads back as the value; the other spec
   * bytes, the attributes and the souls are unchanged.
   */
  function WriteSpecByte(avatar: Avatar, specByte: SpecByte, value: Byte): (r: Avatar)
    requires |avatar.dna| >= SPEC_BYTES_END
    ensures r.seasonId == avatar.seasonId && r.version == avatar.version && r.souls == avatar.souls
    ensures |r.dna| == |avatar.dna|
    ensures ReadSpecByte(r, specByte) == value
    ensures forall other: SpecByte | other != specByte :: ReadSpecByte(r, other) == ReadSpecByte(avatar, other)
    ensures forall attribute :: ReadAttribute(r, attribute) == ReadAttribute(avatar, attribute)
    ensures forall i | 0 <= i < |avatar.dna| && i != 4 + specByte :: r.dna[i] == avatar.dna[i]
  {
    WriteDnaStrand(avatar, 4 + specByte, Full, value)
  }

  /** `read_full_spec_bytes`: the sixteen spec bytes in order. */
  function ReadFullSpecBytes(avatar: Avatar): (r: seq<Byte>)
    requires |avatar.dna| >= SPEC_BYTES_END
    ensures |r| == 16
    ensures forall n: SpecByte :: r[n - 1] == ReadSpecByte(avatar, n)
  {
    avatar.dna[5..21]
  }

  /** `read_progress_array`: DNA bytes 21 to 31. */
  function ReadProgressArray(avatar: Avatar): (r: seq<Byte>)
    requires HasV2Layout(avatar)
    ensures |r| == PROGRESS_ARRAY_LENGTH
    ensures forall i | 0 <= i < PROGRESS_ARRAY_LENGTH :: r[i] == avatar.dna[SPEC_BYTES_END + i]
  {
    avatar.dna[21..32]
  }

  /**
   * Rust's `dna[lo..hi].copy_from_slice(value)`: it panics on an inverted
   * range, on a range past the end, and on a length mismatch; otherwise the
   * range holds `value` and every byte outside it is kept.
   */
  function CopyIntoSlice(dna: seq<Byte>, lo: nat, hi: nat, value: seq<Byte>): (r: Result<seq<Byte>>)
    ensures r.Ok? <==> lo <= hi <= |dna| && hi - lo == |value|
    ensures lo > hi ==> r == Err(SliceRangeInverted)
    ensures r.Ok? ==> |r.value| == |dna| && r.value[lo..hi] == value
    ensures r.Ok? ==> forall i | 0 <= i < |dna| && !(lo <= i < hi) :: r.value[i] == dna[i]
  {
    if lo > hi then Err(SliceRangeInverted)
    else if hi > |dna| then Err(IndexOutOfBounds)
    else if hi - lo != |value| then Err(SliceLengthMismatch)
    else
      var r := dna[..lo] + value + dna[hi..];
      assert r[lo..hi] == value;
      Ok(r)
  }

  /**
   * `write_full_spec_bytes` copies the sixteen bytes into the eleven bytes
   * `dna[5..16]`: it never succeeds.
   */
  function WriteFullSpecBytes(avatar: Avatar, value: seq<Byte>): (r: Result<Avatar>)
    requires |avatar.dna| >= SPEC_BYTES_END && |value| == 16
    ensures r == Err(SliceLengthMismatch)
  {
    match CopyIntoSlice(avatar.dna, 5, 16, value)
    case Ok(dna) => Ok(avatar.(dna := dna))
    case Err(e) => Err(e)
  }

  /** `write_progress_array` copies into the inverted range `21..11`: it never succeeds. */
  function WriteProgressArray(avatar: Avatar, value: seq<Byte>): (r: Result<Avatar>)
    requires HasV2Layout(avatar) && |value| == PROGRESS_ARRAY_LENGTH
    ensures r == Err(SliceRangeInverted)
  {
    match CopyIntoSlice(avatar.dna, 21, 11, value)
    case Ok(dna) => Ok(avatar.(dna := dna))
    case Err(e) => Err(e)
  }

  /**
   * The ranges the two block readers use do fit their blocks: a copy into
   * `dna[5..21]` or `dna[21..32]` succeeds and reads back.
   */
  lemma BlockReadersRangesFit(avatar: Avatar, spec: seq<Byte>, progress: seq<Byte>)
    requires HasV2Layout(avatar) && |spec| == 16 && |progress| == PROGRESS_ARRAY_LENGTH
    ensures CopyIntoSlice(avatar.dna, 5, 21, spec).Ok?
    ensures ReadFullSpecBytes(avatar.(dna := CopyIntoSlice(avatar.dna, 5, 21, spec).value)) == spec
    ensures CopyIntoSlice(avatar.dna, 21, 32, progress).Ok?
    ensures ReadProgressArray(avatar.(dna := CopyIntoSlice(avatar.dna, 21, 32, progress).value)) == progress
  {
  }

  // ----- progress matching -----

  /** `match_progress_byte`: the saturating difference is 1 or `PROGRESS_VARIATIONS - 1`. */
  predicate MatchProgressByte(byte1: Byte, byte2: Byte, variations: Variations)
  {
    var diff := SatSub(byte1, byte2);
    diff == 1 || diff == variations - 1
  }

  /**
   * With at least two variations a match needs the first byte to be the
   * larger one, and one step up always matches.
   */
  lemma MatchProgressByteIsAStepUp(byte1: Byte, byte2: Byte, variations: Variations)
    requires variations >= 2
    ensures MatchProgressByte(byte1, byte2, variations) ==> byte1 > byte2
    ensures byte1 == byte2 + 1 ==> MatchProgressByte(byte1, byte2, variations)
    ensures MatchProgressByte(byte1, byte2, variations) <==>
              byte1 == byte2 + 1 || byte1 == byte2 + variations - 1
  {
  }

  /**
   * The test every round of `match_progress_arrays` repeats: it reads
   * position 1 of both arrays whatever the round.
   */
  predicate PositionOneMatches(progress1: seq<Byte>, progress2: seq<Byte>, variations: Variations)
    requires |progress1| == PROGRESS_ARRAY_LENGTH && |progress2| == PROGRESS_ARRAY_LENGTH
  {
    var lowest1 := ReadDnaAt(progress1, 0, High);
    var rarity1 := ReadDnaAt(progress1, 1, High);
    var rarity2 := ReadDnaAt(progress2, 1, High);
    var isMaxed := rarity1 > lowest1 || lowest1 == RarityIntoByte(Legendary);
    rarity1 == rarity2 && !isMaxed
    && MatchProgressByte(ReadDnaAt(progress1, 1, Low), ReadDnaAt(progress2, 1, Low), variations)
  }

  /**
   * `match_progress_arrays`: either no match at all or every byte of the
   * first array, as decided by position 1 alone.
   */
  method MatchProgressArrays(progress1: seq<Byte>, progress2: seq<Byte>, variations: Variations)
    returns (r: Option<seq<Byte>>)
    requires |progress1| == PROGRESS_ARRAY_LENGTH && |progress2| == PROGRESS_ARRAY_LENGTH
    ensures r.Some? <==> PositionOneMatches(progress1, progress2, variations)
    ensures r.Some? ==> r.value == progress1
  {
    var matches: seq<Byte> := [];
    var mirror: nat := 0;
    var lowest1 := ReadDnaAt(progress1, 0, High);
    for k := 0 to |progress1|
      invariant matches == if PositionOneMatches(progress1, progress2, variations) then progress1[..k] else []
    {
      var index := progress1[k];
      var rarity1 := ReadDnaAt(progress1, 1, High);
      var variation1 := ReadDnaAt(progress1, 1, Low);
      var rarity2 := ReadDnaAt(progress2, 1, High);
      var variation2 := ReadDnaAt(progress2, 1, Low);
      var haveSameRarity := rarity1 == rarity2;
      var isMaxed := rarity1 > lowest1 || lowest1 == RarityIntoByte(Legendary);
      if haveSameRarity && !isMaxed && MatchProgressByte(variation1, variation2, variations) {
        matches := matches + [index];
      }
      if isMaxed && variation1 == variation2 {
        mirror := if mirror == USIZE_MAX then mirror else mirror + 1;
      }
    }
    assert progress1[..|progress1|] == progress1;
    var totalMatches := |matches|;
    var handicap := if totalMatches == 1 then 4 else if totalMatches == 2 then 2 else 0;
    if totalMatches > 0 && totalMatches + mirror >= handicap + 3 {
      r := Some(matches);
    } else {
      r := Nothing;
    }
  }

  // ----- using up an avatar -----

  predicate CanUseAvatar(avatar: Avatar, quantity: Byte)
    requires |avatar.dna| >= ATTRIBUTE_BYTES
  {
    ReadAttribute(avatar, AttrQuantity) >= quantity
  }

  /** The result of `use_avatar`: whether it was used, the soul points it gave, the avatar after. */
  datatype UseOutcome = UseOutcome(used: bool, soulPoints: U32, avatar: Avatar)

  /**
   * `use_avatar`: consumes `quantity` units if there are enough. The last
   * units hand over all the souls; otherwise the souls drop by
   * custom type 1 times the quantity, capped at 255.
   */
  function UseAvatar(avatar: Avatar, quantity: Byte): (r: UseOutcome)
    requires |avatar.dna| >= ATTRIBUTE_BYTES
    ensures r.used <==> CanUseAvatar(avatar, quantity)
    ensures !r.used ==> r.avatar == avatar && r.soulPoints == 0
    ensures r.avatar.seasonId == avatar.seasonId && r.avatar.version == avatar.version
    ensures |r.avatar.dna| == |avatar.dna|
    ensures forall i | 0 <= i < |avatar.dna| && i != 3 :: r.avatar.dna[i] == avatar.dna[i]
    ensures r.used ==> ReadAttribute(r.avatar, AttrQuantity) == ReadAttribute(avatar, AttrQuantity) - quantity
    ensures r.used && ReadAttribute(avatar, AttrQuantity) == quantity ==>
              r.soulPoints == avatar.souls && r.avatar.souls == 0
    ensures r.used && ReadAttribute(avatar, AttrQuantity) > quantity ==>
              r.soulPoints == SatMulU8(ReadAttribute(avatar, AttrCustomType1), quantity)
              && r.avatar.souls == SatSub(avatar.souls, r.soulPoints)
  {
    var currentQuantity := ReadAttribute(avatar, AttrQuantity);
    if currentQuantity < quantity then UseOutcome(false, 0, avatar)
    else
      var newQuantity := currentQuantity - quantity;
      var written := WriteAttribute(avatar, AttrQuantity, newQuantity);
      if newQuantity == 0 then
        UseOutcome(true, written.souls, written.(souls := 0))
      else
        var diff := SatMulU8(ReadAttribute(written, AttrCustomType1), quantity);
        UseOutcome(true, diff, written.(souls := SatSub(written.souls, diff)))
  }

  /** Two uses that fit take exactly the units one combined use takes. */
  lemma UsesAddUp(avatar: Avatar, q1: Byte, q2: Byte)
    requires |avatar.dna| >= ATTRIBUTE_BYTES && q1 + q2 <= ReadAttribute(avatar, AttrQuantity)
    ensures UseAvatar(avatar, q1).used
    ensures UseAvatar(UseAvatar(avatar, q1).avatar, q2).used
    ensures ReadAttribute(UseAvatar(UseAvatar(avatar, q1).avatar, q2).avatar, AttrQuantity)
            == ReadAttribute(UseAvatar(avatar, q1 + q2).avatar, AttrQuantity)
  {
  }

  // ----- enum lists as bit sets -----

  /**
   * The bit `enums_to_bits` sets for an entry with code `code`: bit
   * `code - 1`, where a shift by 8 or more wraps around.
   */
  function EntryBit(code: Byte): (n: nat)
    ensures n < 8
    ensures 1 <= code <= 8 ==> n == code - 1
  {
    SatSub(code, 1) % 8
  }

  /** `enums_to_bits`: `acc | 1 << (code - 1)` folded over the list from the left. */
  function EnumsToBits<T>(enumList: seq<T>, intoByte: T -> Byte): Byte
  {
    if |enumList| == 0 then 0
    else
      Or8(EnumsToBits(enumList[..|enumList| - 1], intoByte),
          Shl8(1, SatSub(intoByte(enumList[|enumList| - 1]), 1)))
  }

  /** Bit `n` of `enums_to_bits` is set exactly when some entry's bit is `n`. */
  lemma {:induction false} EnumsToBitsSetsEntryBits<T>(enumList: seq<T>, intoByte: T -> Byte, n: nat)
    ensures TestBit(EnumsToBits(enumList, intoByte), n) <==>
            exists k | 0 <= k < |enumList| :: EntryBit(intoByte(enumList[k])) == n
  {
    if |enumList| == 0 {
      ZeroHasNoBits(n);
    } else {
      var prefix := enumList[..|enumList| - 1];
      var last := enumList[|enumList| - 1];
      var shift := SatSub(intoByte(last), 1);
      EnumsToBitsSetsEntryBits(prefix, intoByte, n);
      OneShl8(shift);
      TestBitOr(EnumsToBits(prefix, intoByte), Shl8(1, shift), n);
      TestBitPow2(shift % 8, n);
      if exists k | 0 <= k < |prefix| :: EntryBit(intoByte(prefix[k])) == n {
        var k :| 0 <= k < |prefix| && EntryBit(intoByte(prefix[k])) == n;
        assert enumList[k] == prefix[k];
      }
      if exists k | 0 <= k < |enumList| :: EntryBit(intoByte(enumList[k])) == n {
        var k :| 0 <= k < |enumList| && EntryBit(intoByte(enumList[k])) == n;
        if k < |prefix| {
          assert prefix[k] == enumList[k];
        }
      }
    }
  }

  /** `enums_to_bits` only sees which entries occur: not their order, not their repetitions. */
  lemma EnumsToBitsIgnoresOrderAndRepeats<T>(list1: seq<T>, list2: seq<T>, intoByte: T -> Byte)
    requires forall e :: e in list1 <==> e in list2
    ensures EnumsToBits(list1, intoByte) == EnumsToBits(list2, intoByte)
  {
    forall n: nat | n < 8
      ensures TestBit(EnumsToBits(list1, intoByte), n) == TestBit(EnumsToBits(list2, intoByte), n)
    {
      EnumsToBitsSetsEntryBits(list1, intoByte, n);
      EnumsToBitsSetsEntryBits(list2, intoByte, n);
      if exists k | 0 <= k < |list1| :: EntryBit(intoByte(list1[k])) == n {
        var k :| 0 <= k < |list1| && EntryBit(intoByte(list1[k])) == n;
        assert list1[k] in list2;
        var j :| 0 <= j < |list2| && list2[j] == list1[k];
      }
      if exists k | 0 <= k < |list2| :: EntryBit(intoByte(list2[k])) == n {
        var k :| 0 <= k < |list2| && EntryBit(intoByte(list2[k])) == n;
        assert list2[k] in list1;
        var j :| 0 <= j < |list1| && list1[j] == list2[k];
      }
    }
    Pow2Is32Bits();
    BitsDetermine(EnumsToBits(list1, intoByte), EnumsToBits(list2, intoByte), 8);
  }

  /** `bits_to_enums` from bit `n` upwards: `from_byte(m)` for each set bit `m`, in ascending order. */
  function BitsToEnumsFrom<T>(bits: Byte, n: nat, fromByte: Byte -> T): seq<T>
    requires n <= 8
    decreases 8 - n
  {
    if n == 8 then []
    else
      (if And8(bits, Shl8(1, n)) != 0 then [fromByte(n)] else [])
      + BitsToEnumsFrom(bits, n + 1, fromByte)
  }

  function BitsToEnums<T>(bits: Byte, fromByte: Byte -> T): seq<T>
  {
    BitsToEnumsFrom(bits, 0, fromByte)
  }

  /** The mask test `bits & (1 << n) != 0` is bit `n` of `bits`. */
  lemma MaskTestIsBit(bits: Byte, n: nat)
    requires n < 8
    ensures And8(bits, Shl8(1, n)) != 0 <==> TestBit(bits, n)
  {
    OneShl8(n);
    assert n % 8 == n;
    AndPow2(bits, n);
    assert And8(bits, Shl8(1, n)) == BitAnd(bits, Pow2(n));
  }

  /** `bits_to_enums` decodes exactly the set bits (from bit `n` up). */
  lemma {:induction false} BitsToEnumsDecodesSetBits<T>(bits: Byte, n: nat, fromByte: Byte -> T)
    requires n <= 8
    ensures forall m | n <= m < 8 && TestBit(bits, m) :: fromByte(m) in BitsToEnumsFrom(bits, n, fromByte)
    ensures forall x | x in BitsToEnumsFrom(bits, n, fromByte) ::
              exists m | n <= m < 8 :: TestBit(bits, m) && x == fromByte(m)
    decreases 8 - n
  {
    if n < 8 {
      BitsToEnumsDecodesSetBits(bits, n + 1, fromByte);
      MaskTestIsBit(bits, n);
    }
  }

  /** The decoding of a single power of two `2^m` from bit `n` up. */
  lemma {:induction false} BitsToEnumsOfOneBit<T>(m: nat, n: nat, fromByte: Byte -> T)
    requires m < 8 && n <= 8
    ensures Pow2(m) < 256
    ensures BitsToEnumsFrom(Pow2(m), n, fromByte) == if n <= m then [fromByte(m)] else []
    decreases 8 - n
  {
    Pow2Below8(m);
    if n < 8 {
      BitsToEnumsOfOneBit(m, n + 1, fromByte);
      MaskTestIsBit(Pow2(m), n);
      TestBitPow2(m, n);
    }
  }

  /**
   * Decoding is shifted by one against encoding: an entry with code `c` is
   * stored as bit `c - 1` but that bit decodes as `from_byte(c - 1)`.
   */
  lemma DecodingIsShiftedByOne<T>(entry: T, intoByte: T -> Byte, fromByte: Byte -> T)
    requires 1 <= intoByte(entry) <= 8
    ensures BitsToEnums(EnumsToBits([entry], intoByte), fromByte) == [fromByte(intoByte(entry) - 1)]
  {
    var m := intoByte(entry) - 1;
    OneShl8(m);
    assert [entry][..0] == [];
    assert EnumsToBits([entry], intoByte) == Pow2(m);
    BitsToEnumsOfOneBit(m, 0, fromByte);
  }

  /** So a list holding `Electronics` comes back as `Polymers`. */
  lemma MaterialRoundTripIsShifted()
    ensures BitsToEnums(EnumsToBits([Electronics], MaterialIntoByte), MaterialFromByte) == [Polymers]
  {
    DecodingIsShiftedByOne(Electronics, MaterialIntoByte, MaterialFromByte);
  }

  // ----- sorting by code -----

  /** Sorted by code, which is Rust's derived order on every enum of the engine. */
  predicate SortedByCode<T>(list: seq<T>, code: T -> Byte)
  {
    forall i, j | 0 <= i < j < |list| :: code(list[i]) <= code(list[j])
  }

  /** A list stays sorted when an entry no greater than any of its entries goes in front. */
  lemma PrependKeepsSorted<T>(y: T, rest: seq<T>, code: T -> Byte)
    requires SortedByCode(rest, code)
    requires forall k | 0 <= k < |rest| :: code(y) <= code(rest[k])
    ensures SortedByCode([y] + rest, code)
  {
    var r := [y] + rest;
    forall i, j | 0 <= i < j < |r|
      ensures code(r[i]) <= code(r[j])
    {
      assert r[j] == rest[j - 1];
      if i > 0 {
        assert r[i] == rest[i - 1];
      }
    }
  }

  /** Inserting `x` into a tail bounded below by `y`'s code keeps the bound when `x` is above it. */
  lemma InsertedTailBound<T>(y: T, x: T, tail: seq<T>, rest: seq<T>, code: T -> Byte)
    requires code(y) <= code(x)
    requires forall k | 0 <= k < |tail| :: code(y) <= code(tail[k])
    requires multiset(rest) == multiset(tail) + multiset{x}
    ensures forall k | 0 <= k < |rest| :: code(y) <= code(rest[k])
  {
    forall k | 0 <= k < |rest|
      ensures code(y) <= code(rest[k])
    {
      assert rest[k] in multiset(rest);
      if rest[k] != x {
        assert rest[k] in tail;
      }
    }
  }

  function InsertByCode<T(==)>(x: T, sorted: seq<T>, code: T -> Byte): (r: seq<T>)
    requires SortedByCode(sorted, code)
    ensures multiset(r) == multiset(sorted) + multiset{x}
    ensures SortedByCode(r, code)
  {
    if |sorted| == 0 || code(x) <= code(sorted[0]) then
      PrependKeepsSorted(x, sorted, code);
      [x] + sorted
    else
      var rest := InsertByCode(x, sorted[1..], code);
      assert sorted == [sorted[0]] + sorted[1..];
      InsertedTailBound(sorted[0], x, sorted[1..], rest, code);
      PrependKeepsSorted(sorted[0], rest, code);
      [sorted[0]] + rest
  }

  /** Rust's `sort` on a list of enum values: a sorted permutation. */
  function SortByCode<T(==)>(list: seq<T>, code: T -> Byte): (r: seq<T>)
    ensures multiset(r) == multiset(list)
    ensures SortedByCode(r, code)
  {
    if |list| == 0 then []
    else
      assert list == [list[0]] + list[1..];
      InsertByCode(list[0], SortByCode(list[1..], code), code)
  }

  /** The head of the sorted list has the lowest code of the list. */
  lemma SortedHeadIsMinimum<T>(list: seq<T>, code: T -> Byte)
    requires |list| > 0
    ensures |SortByCode(list, code)| == |list|
    ensures SortByCode(list, code)[0] in list
    ensures forall x | x in list :: code(SortByCode(list, code)[0]) <= code(x)
  {
    var sorted := SortByCode(list, code);
    assert |sorted| == |multiset(sorted)| == |multiset(list)| == |list|;
    assert sorted[0] in multiset(sorted);
    forall x | x in list
      ensures code(sorted[0]) <= code(x)
    {
      assert x in multiset(sorted);
      var k :| 0 <= k < |sorted| && sorted[k] == x;
    }
  }

  // ----- bits_order_to_enum -----

  /** Entry `i` of the table `bit_index_array`: the single bit `i` places down from the top one. */
  function BitIndex(i: nat): (r: Byte)
    requires i < 8
    ensures r > 0
  {
    Pow2Below8(7 - i);
    Pow2(7 - i)
  }

  /** The table as the source writes it out: 0x80, 0x40, ..., 0x01. */
  lemma BitIndexTable()
    ensures forall i | 0 <= i < 8 :: BitIndex(i) == [0x80, 0x40, 0x20, 0x10, 0x08, 0x04, 0x02, 0x01][i]
  {
    assert Pow2(7) == 0x80;
  }

  /** The position step `i` of `bits_order_to_enum` extracts: bits `i` and `i + 1` from the top, shifted by `8 - i`. */
  function BitPosition(bitOrder: Byte, i: nat): Byte
    requires i + 1 < 8
  {
    Shr8(And8(bitOrder, Or8(BitIndex(i), BitIndex(i + 1))), 8 - i)
  }

  /** The four positions `bits_order_to_enum` computes, one per step `i = 0, 2, 4, 6`. */
  function PickPositions(bitOrder: Byte): (r: seq<Byte>)
    ensures |r| == 4
  {
    [BitPosition(bitOrder, 0), BitPosition(bitOrder, 2), BitPosition(bitOrder, 4), BitPosition(bitOrder, 6)]
  }

  /**
   * The outcome of `bits_order_to_enum` after its first `steps` steps: a
   * position below 8 picks that entry of the sorted list (a panic when the
   * list is too short), any other position picks nothing.
   */
  function OrderedPicks<T>(positions: seq<Byte>, sorted: seq<T>, steps: nat): Result<seq<T>>
    requires steps <= |positions|
  {
    if steps == 0 then Ok([])
    else
      match OrderedPicks(positions, sorted, steps - 1)
      case Err(e) => Err(e)
      case Ok(output) =>
        var position := positions[steps - 1];
        if 8 > position then
          if position < |sorted| then Ok(output + [sorted[position]]) else Err(IndexOutOfBounds)
        else Ok(output)
  }

  /** Once a step has panicked, the outcome stays that panic. */
  lemma {:induction false} OrderedPicksStopAtPanic<T>(positions: seq<Byte>, sorted: seq<T>, steps: nat, more: nat)
    requires steps <= more <= |positions| && OrderedPicks(positions, sorted, steps).Err?
    ensures OrderedPicks(positions, sorted, more) == OrderedPicks(positions, sorted, steps)
    decreases more - steps
  {
    if steps < more {
      OrderedPicksStopAtPanic(positions, sorted, steps + 1, more);
    }
  }

  /** `bits_order_to_enum` (a panic on indexing is an `Err`); step `k` is the source's `i = 2k`. */
  method BitsOrderToEnum<T(==)>(bitOrder: Byte, enumList: seq<T>, code: T -> Byte) returns (r: Result<seq<T>>)
    ensures r == OrderedPicks(PickPositions(bitOrder), SortByCode(enumList, code), 4)
  {
    var sorted := SortByCode(enumList, code);
    ghost var positions := PickPositions(bitOrder);
    var output: seq<T> := [];
    for step := 0 to 4
      invariant OrderedPicks(positions, sorted, step) == Ok(output)
    {
      var i := 2 * step;
      var bitPosition := BitPosition(bitOrder, i);
      assert bitPosition == positions[step];
      if 8 > bitPosition {
        if bitPosition >= |sorted| {
          OrderedPicksStopAtPanic(positions, sorted, step + 1, 4);
          return Err(IndexOutOfBounds);
        }
        output := output + [sorted[bitPosition]];
      }
    }
    r := Ok(output);
  }

  /** `bit_order & 0xC0` keeps only the top two bits: 0, 64, 128 or 192. */
  lemma {:induction false} TopTwoBits(bitOrder: Byte)
    ensures And8(bitOrder, 0xC0) % 64 == 0
  {
    var b1 := bitOrder / 2;
    var b2 := b1 / 2;
    var b3 := b2 / 2;
    var b4 := b3 / 2;
    var b5 := b4 / 2;
    var b6 := b5 / 2;
    HalveAnd(bitOrder, 0x60);
    HalveAnd(b1, 0x30);
    HalveAnd(b2, 0x18);
    HalveAnd(b3, 0x0C);
    HalveAnd(b4, 0x06);
    HalveAnd(b5, 0x03);
    assert BitAnd(bitOrder, 0xC0) == 2 * BitAnd(b1, 0x60) == 4 * BitAnd(b2, 0x30) == 8 * BitAnd(b3, 0x18);
    assert BitAnd(b3, 0x18) == 2 * BitAnd(b4, 0x0C) == 4 * BitAnd(b5, 0x06) == 8 * BitAnd(b6, 0x03);
  }

  /**
   * The position step 0 of `bits_order_to_enum` computes: the shift by 8
   * wraps to no shift, so it is position 0 when the top two bits are clear
   * and 64 or more otherwise.
   */
  lemma BitPositionFirst(bitOrder: Byte)
    ensures (BitPosition(bitOrder, 0) < 8) <==> And8(bitOrder, 0xC0) == 0
    ensures BitPosition(bitOrder, 0) < 8 ==> BitPosition(bitOrder, 0) == 0
  {
    assert Or8(BitIndex(0), BitIndex(1)) == 0xC0 by {
      assert BitIndex(0) == 128 && BitIndex(1) == 64;
      OrDisjoint(1, 64, 7);
    }
    TopTwoBits(bitOrder);
    assert BitPosition(bitOrder, 0) == And8(bitOrder, 0xC0);
  }

  /** Steps 2, 4 and 6 shift their two bits out entirely, so they are always position 0. */
  lemma BitPositionLater(bitOrder: Byte, i: nat)
    requires i == 2 || i == 4 || i == 6
    ensures BitPosition(bitOrder, i) == 0
  {
    var kept := And8(bitOrder, Or8(BitIndex(i), BitIndex(i + 1)));
    if i == 2 {
      assert BitIndex(2) == 0x20 && BitIndex(3) == 0x10;
      OrXorBound(0x20, 0x10, 6);
      ShrBitsOut(kept, 6);
    } else if i == 4 {
      assert BitIndex(4) == 0x08 && BitIndex(5) == 0x04;
      OrXorBound(0x08, 0x04, 4);
      ShrBitsOut(kept, 4);
    } else {
      assert BitIndex(6) == 0x02 && BitIndex(7) == 0x01;
      OrXorBound(0x02, 0x01, 2);
      ShrBitsOut(kept, 2);
    }
  }

  /**
   * So every element `bits_order_to_enum` returns is the lowest entry of the
   * list: four copies of it when the top two bits of the order are clear,
   * three otherwise; an empty list panics.
   */
  lemma BitsOrderToEnumRepeatsMinimum<T>(bitOrder: Byte, enumList: seq<T>, code: T -> Byte)
    ensures |enumList| == 0 ==>
              OrderedPicks(PickPositions(bitOrder), SortByCode(enumList, code), 4) == Err(IndexOutOfBounds)
    ensures |enumList| > 0 ==>
              var picks := OrderedPicks(PickPositions(bitOrder), SortByCode(enumList, code), 4);
              picks.Ok? && |picks.value| == (if And8(bitOrder, 0xC0) == 0 then 4 else 3)
              && forall k | 0 <= k < |picks.value| :: picks.value[k] == SortByCode(enumList, code)[0]
  {
    var sorted := SortByCode(enumList, code);
    assert |sorted| == |multiset(sorted)| == |enumList|;
    PickPositionsShape(bitOrder);
    OrderedPicksRepeatHead(PickPositions(bitOrder), sorted);
  }

  /** Only the first position can pick anything but entry 0, and it picks entry 0 or nothing. */
  lemma PickPositionsShape(bitOrder: Byte)
    ensures var positions := PickPositions(bitOrder);
            positions[1] == 0 && positions[2] == 0 && positions[3] == 0
            && (positions[0] < 8 <==> And8(bitOrder, 0xC0) == 0)
            && (positions[0] < 8 ==> positions[0] == 0)
  {
    BitPositionFirst(bitOrder);
    BitPositionLater(bitOrder, 2);
    BitPositionLater(bitOrder, 4);
    BitPositionLater(bitOrder, 6);
  }

  /**
   * `OrderedPicks` over positions that are 0 after the first one: the head
   * repeated, or a panic for the empty list.
   */
  lemma OrderedPicksRepeatHead<T>(positions: seq<Byte>, sorted: seq<T>)
    requires |positions| == 4 && positions[1] == 0 && positions[2] == 0 && positions[3] == 0
    requires positions[0] < 8 ==> positions[0] == 0
    ensures |sorted| == 0 ==> OrderedPicks(positions, sorted, 4) == Err(IndexOutOfBounds)
    ensures |sorted| > 0 ==>
              var picks := OrderedPicks(positions, sorted, 4);
              picks.Ok? && |picks.value| == (if positions[0] < 8 then 4 else 3)
              && forall k | 0 <= k < |picks.value| :: picks.value[k] == sorted[0]
  {
    if |sorted| == 0 {
      if positions[0] < 8 {
        OrderedPicksStopAtPanic(positions, sorted, 1, 4);
      } else {
        assert OrderedPicks(positions, sorted, 1) == Ok([]);
        OrderedPicksStopAtPanic(positions, sorted, 2, 4);
      }
    } else {
      var h := sorted[0];
      var first: seq<T> := if positions[0] < 8 then [h] else [];
      assert [] + [h] == [h];
      assert OrderedPicks(positions, sorted, 0) == Ok([]);
      assert OrderedPicks(positions, sorted, 1) == Ok(first);
      assert OrderedPicks(positions, sorted, 2) == Ok(first + [h]);
      assert OrderedPicks(positions, sorted, 3) == Ok(first + [h] + [h]);
    }
  }

  // ----- enums_order_to_bits -----

  /**
   * `binary_search` for an entry's code in the sorted list; with repeated
   * entries the model takes the first index.
   */
  function FirstIndexWithCode<T>(sorted: seq<T>, c: Byte, code: T -> Byte): (r: Option<nat>)
    ensures r.Some? ==> r.value < |sorted| && code(sorted[r.value]) == c
    ensures r.Some? ==> forall k | 0 <= k < r.value :: code(sorted[k]) != c
    ensures r.Nothing? ==> forall k | 0 <= k < |sorted| :: code(sorted[k]) != c
  {
    if |sorted| == 0 then Nothing
    else if code(sorted[0]) == c then Some(0)
    else
      match FirstIndexWithCode(sorted[1..], c, code)
      case Nothing => Nothing
      case Some(i) => Some(i + 1)
  }

  /** `(byte_buff, buff_fill_size)` after the loop of `enums_order_to_bits` has visited `entries`. */
  function OrderFold<T>(entries: seq<T>, sorted: seq<T>, code: T -> Byte): (U32, U32)
    requires |sorted| <= USIZE_MAX
  {
    if |entries| == 0 then (0, 0)
    else
      var (buff, fill) := OrderFold(entries[..|entries| - 1], sorted, code);
      match FirstIndexWithCode(sorted, code(entries[|entries| - 1]), code)
      case Nothing => (buff, fill)
      case Some(index) =>
        Pow2Is64Bits();
        BitLengthBound(index, 64);
        var amount := BitLength(index);
        (Shl32(Or32(buff, index % 0x1_0000_0000), amount), WrapAddU32(fill, amount))
  }

  /** What `enums_order_to_bits` returns. */
  function EnumsOrderBits<T(==)>(enumList: seq<T>, code: T -> Byte): Byte
    requires |enumList| <= USIZE_MAX
  {
    var sorted := SortByCode(enumList, code);
    assert |sorted| == |multiset(sorted)| == |enumList|;
    var (buff, fill) := OrderFold(enumList, sorted, code);
    Shr32(buff, SatSub(fill, 8)) % 256
  }

  /** `enums_order_to_bits`. */
  method EnumsOrderToBits<T(==)>(enumList: seq<T>, code: T -> Byte) returns (r: Byte)
    requires |enumList| <= USIZE_MAX
    ensures r == EnumsOrderBits(enumList, code)
  {
    var sortedList := SortByCode(enumList, code);
    assert |sortedList| == |multiset(sortedList)| == |enumList|;
    var byteBuff: U32 := 0;
    var buffFillSize: U32 := 0;
    for k := 0 to |enumList|
      invariant (byteBuff, buffFillSize) == OrderFold(enumList[..k], sortedList, code)
    {
      var entry := enumList[k];
      assert enumList[..k + 1][..k] == enumList[..k];
      match FirstIndexWithCode(sortedList, code(entry), code) {
        case Some(index) =>
          Pow2Is64Bits();
          BitLengthBound(index, 64);
          byteBuff := Or32(byteBuff, index % 0x1_0000_0000);
          var fillAmount := BitLength(index);
          byteBuff := Shl32(byteBuff, fillAmount);
          buffFillSize := WrapAddU32(buffFillSize, fillAmount);
        case Nothing =>
      }
    }
    assert enumList[..|enumList|] == enumList;
    r := Shr32(byteBuff, SatSub(buffFillSize, 8)) % 256;
  }

  /** Sorting a pair puts the lower code first, whichever order it came in. */
  lemma SortPair<T>(a: T, b: T, code: T -> Byte)
    requires code(a) < code(b)
    ensures SortByCode([a, b], code) == [a, b]
    ensures SortByCode([b, a], code) == [a, b]
  {
    assert [a, b][1..] == [b] && [b, a][1..] == [a];
    assert [b][1..] == [] && [a][1..] == [];
    assert SortByCode([b], code) == [b];
    assert SortByCode([a], code) == [a];
    assert InsertByCode(b, [a], code) == [a] + InsertByCode(b, [], code);
  }

  /**
   * Two different entries give the same byte in either order: the order of
   * a pair is not recorded.
   */
  lemma EnumsOrderBitsForgetPairOrder<T>(a: T, b: T, code: T -> Byte)
    requires code(a) < code(b)
    ensures EnumsOrderBits([a, b], code) == 2
    ensures EnumsOrderBits([b, a], code) == 2
  {
    SortPair(a, b, code);
    var sorted := [a, b];
    assert FirstIndexWithCode(sorted, code(a), code) == Some(0);
    assert FirstIndexWithCode(sorted, code(b), code) == Some(1);
    assert Pow2(1) == 2;
    assert BitLength(1) == 1 && BitLength(0) == 0;
    assert Or32(0, 1) == 1 && Or32(0, 0) == 0 && Or32(2, 0) == 2;
    assert [a, b][..1] == [a] && [b, a][..1] == [b];
    assert [a][..0] == [] && [b][..0] == [];
    assert OrderFold([a], sorted, code) == (0, 0);
    assert OrderFold([a, b], sorted, code) == (2, 1);
    assert OrderFold([b], sorted, code) == (2, 1);
    assert OrderFold([b, a], sorted, code) == (2, 1);
  }

  // ----- progress bytes -----

  /**
   * `write_progress_bytes` with its float threshold `u8::MAX * probability`
   * given as the byte `threshold`: every position gets the rarity, one above
   * where its byte is below the threshold, and the byte modulo the variations
   * as its variation; the last position gets the plain rarity.
   */
  method WriteProgressBytes(rarity: RarityType, threshold: Byte, progressBytes: seq<Byte>, variations: Variations)
    returns (r: seq<Byte>)
    requires |progressBytes| == PROGRESS_ARRAY_LENGTH
    ensures |r| == PROGRESS_ARRAY_LENGTH
    ensures forall i | 0 <= i < 10 ::
              ReadDnaAt(r, i, High) == RarityIntoByte(rarity) + (if progressBytes[i] < threshold then 1 else 0)
    ensures ReadDnaAt(r, 10, High) == RarityIntoByte(rarity)
    ensures forall i | 0 <= i < PROGRESS_ARRAY_LENGTH :: ReadDnaAt(r, i, Low) == progressBytes[i] % variations % 16
  {
    r := progressBytes;
    for i := 0 to |r|
      invariant |r| == PROGRESS_ARRAY_LENGTH
      invariant forall j | i <= j < PROGRESS_ARRAY_LENGTH :: r[j] == progressBytes[j]
      invariant forall j | 0 <= j < i :: ProgressPositionWritten(r, progressBytes, j, rarity, threshold, variations)
    {
      var randomValue := ReadDnaAt(r, i, Full);
      var newRarity := RarityIntoByte(rarity);
      if randomValue < threshold {
        newRarity := SatAddU8(newRarity, 1);
      }
      ProgressStep(r, progressBytes, i, rarity, threshold, variations);
      r := WriteProgressPosition(r, i, newRarity, randomValue % variations);
    }
    LastRarityWrite(r, progressBytes, rarity, threshold, variations);
    r := WriteDnaAt(r, 10, High, RarityIntoByte(rarity));
  }

  /** The closing write of `write_progress_bytes` puts the plain rarity in the last position. */
  lemma LastRarityWrite(
    r: seq<Byte>, progressBytes: seq<Byte>, rarity: RarityType, threshold: Byte, variations: Variations)
    requires |r| == PROGRESS_ARRAY_LENGTH && |progressBytes| == PROGRESS_ARRAY_LENGTH
    requires forall j | 0 <= j < PROGRESS_ARRAY_LENGTH :: ProgressPositionWritten(r, progressBytes, j, rarity, threshold, variations)
    ensures var w := WriteDnaAt(r, 10, High, RarityIntoByte(rarity));
            && (forall i | 0 <= i < 10 ::
                  ReadDnaAt(w, i, High) == RarityIntoByte(rarity) + (if progressBytes[i] < threshold then 1 else 0))
            && ReadDnaAt(w, 10, High) == RarityIntoByte(rarity)
            && (forall i | 0 <= i < PROGRESS_ARRAY_LENGTH :: ReadDnaAt(w, i, Low) == progressBytes[i] % variations % 16)
  {
    var code := RarityIntoByte(rarity);
    var w := WriteDnaAt(r, 10, High, code);
    WriteDnaAtRoundTrip(r, 10, High, code);
    assert ReadDnaAt(w, 10, High) == code % 16 == code;
    assert ProgressPositionWritten(r, progressBytes, 10, rarity, threshold, variations);
    assert ReadDnaAt(w, 10, Low) == ReadDnaAt(r, 10, Low) == progressBytes[10] % variations % 16;
    forall i | 0 <= i < 10
      ensures ReadDnaAt(w, i, High) == RarityIntoByte(rarity) + (if progressBytes[i] < threshold then 1 else 0)
      ensures ReadDnaAt(w, i, Low) == progressBytes[i] % variations % 16
    {
      assert w[i] == r[i];
      assert ProgressPositionWritten(r, progressBytes, i, rarity, threshold, variations);
    }
  }

  /** One round of the loop of `write_progress_bytes` keeps the positions before it and writes its own. */
  lemma ProgressStep(
    r: seq<Byte>, progressBytes: seq<Byte>, i: nat, rarity: RarityType, threshold: Byte, variations: Variations)
    requires |r| == PROGRESS_ARRAY_LENGTH && |progressBytes| == PROGRESS_ARRAY_LENGTH && i < PROGRESS_ARRAY_LENGTH
    requires r[i] == progressBytes[i]
    requires forall j | 0 <= j < i :: ProgressPositionWritten(r, progressBytes, j, rarity, threshold, variations)
    ensures var newRarity := if r[i] < threshold then SatAddU8(RarityIntoByte(rarity), 1) else RarityIntoByte(rarity);
            newRarity < 16 &&
            var w := WriteProgressPosition(r, i, newRarity, r[i] % variations);
            forall j | 0 <= j <= i :: ProgressPositionWritten(w, progressBytes, j, rarity, threshold, variations)
  {
    var newRarity := if r[i] < threshold then SatAddU8(RarityIntoByte(rarity), 1) else RarityIntoByte(rarity);
    var w := WriteProgressPosition(r, i, newRarity, r[i] % variations);
    forall j | 0 <= j < i
      ensures ProgressPositionWritten(w, progressBytes, j, rarity, threshold, variations)
    {
      assert w[j] == r[j];
      assert ProgressPositionWritten(r, progressBytes, j, rarity, threshold, variations);
    }
  }

  /** Position `j` holds what the loop of `write_progress_bytes` writes there. */
  predicate ProgressPositionWritten(
    r: seq<Byte>, progressBytes: seq<Byte>, j: nat, rarity: RarityType, threshold: Byte, variations: Variations)
    requires j < |r| && j < |progressBytes|
  {
    && ReadDnaAt(r, j, High) == RarityIntoByte(rarity) + (if progressBytes[j] < threshold then 1 else 0)
    && ReadDnaAt(r, j, Low) == progressBytes[j] % variations % 16
  }

  /** The two nibble writes `write_progress_bytes` makes at one position. */
  function WriteProgressPosition(bytes: seq<Byte>, i: nat, rarityCode: Byte, variation: Byte): (r: seq<Byte>)
    requires i < |bytes| && rarityCode < 16
    ensures |r| == |bytes|
    ensures forall j | 0 <= j < |bytes| && j != i :: r[j] == bytes[j]
    ensures ReadDnaAt(r, i, High) == rarityCode && ReadDnaAt(r, i, Low) == variation % 16
  {
    var highWritten := WriteDnaAt(bytes, i, High, rarityCode);
    var r := WriteDnaAt(highWritten, i, Low, variation);
    ProgressByteWrites(bytes[i], rarityCode, variation, highWritten[i], r[i]);
    r
  }

  /** The two nibble writes of one step of `write_progress_bytes`. */
  lemma ProgressByteWrites(b: Byte, rarityCode: Byte, variation: Byte, afterHigh: Byte, afterLow: Byte)
    requires rarityCode < 16
    requires afterHigh == 16 * (rarityCode % 16) + b % 16
    requires afterLow == 16 * (afterHigh / 16) + variation % 16
    ensures afterLow / 16 == rarityCode && afterLow % 16 == variation % 16
  {
    NibblesSplit(rarityCode, b % 16);
    NibblesSplit(rarityCode, variation % 16);
  }

  /** `read_lowest_progress_byte`: the least strand of the array. */
  method ReadLowestProgressByte(progressBytes: seq<Byte>, byteType: ByteType) returns (r: Byte)
    requires |progressBytes| == PROGRESS_ARRAY_LENGTH
    ensures forall i | 0 <= i < PROGRESS_ARRAY_LENGTH :: r <= ReadDnaAt(progressBytes, i, byteType)
    ensures exists i | 0 <= i < PROGRESS_ARRAY_LENGTH :: r == ReadDnaAt(progressBytes, i, byteType)
  {
    r := U8_MAX;
    for i := 0 to |progressBytes|
      invariant forall j | 0 <= j < i :: r <= ReadDnaAt(progressBytes, j, byteType)
      invariant r == U8_MAX || exists j | 0 <= j < i :: r == ReadDnaAt(progressBytes, j, byteType)
    {
      var value := ReadDnaAt(progressBytes, i, byteType);
      if r > value {
        r := value;
      }
    }
    if r == U8_MAX {
      assert r == ReadDnaAt(progressBytes, 0, byteType);
    }
  }
}
