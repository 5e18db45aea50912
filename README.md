# Ajuna avatar engine, mogwai registry and auctions, in Dafny

This project models three parts of the Ajuna parachain pallets and proves properties of each.

**The V2 avatar engine of `pallet-ajuna-awesome-avatars`.** An avatar is a season id, a version, a 32-byte DNA and a soul count. The DNA holds nibble-packed attributes in bytes 0 to 4, sixteen spec bytes and an eleven-byte progress array. The model covers:

- the closed enumerations and their byte codes (`TypesV2`), and the older enumeration file (`AvatarTypes`);
- the DNA codec (`AvatarUtils`), its two wrapper copies (`AvatarWrapper`, `WrappedAvatars`), and the attribute-block view used to reason about chains of writes (`AttributeBlock`);
- the avatar builder (`Builder`), a class whose steps rewrite the avatar it holds;
- the weighted slot roller and the pack tables (`SlotRoller`, `ToolsConstants`, `MintConstants`);
- the hash provider the engine draws its randomness from (`HashProviders`);
- the item mutators of the tools iteration (`AvatarMutator`) and the DNA mutators of the mint iteration (`DnaMutator`);
- the minters: the first minter (`MintV1`), the mint iteration (`MintV2`) and the V2 minter (`ToolsMinter`);
- the forge classifiers, old (`ForgeV2`) and V2 (`ToolsForger`);
- the combinator that carries out each forge (`Combinator`).

Randomness enters only as hash bytes. These are the provider's hash and full hashes, the hash identifiers of minted avatars, or the random hash a roll reads. All of them are inputs. The runtime is a release build. Fixed-width additions and shifts therefore wrap, and this is written out. Every panic is an explicit `Err` of a `Failure`: `todo!()`, an index out of bounds, a slice copy that cannot fit, or a remainder by zero.

**The mogwai registry of `pallet-battle-mogs`** (`BattleMogs`). Live mogwais are enumerated twice by swap-and-pop index maps: once over all mogwais and once per owner. The model covers `mint`, `remove`, `transfer_from`, the guards and effects of `buy_mogwai` and `sacrifice_into`, and `calculate_breedtype`. The proofs show that the enumerations stay bijections with the live mogwais.

**The auction pallet `pallet-ajuna-auction`** (`Auction`). It covers the creation check, `new_auction`, `remove_auction`, and `bid` with its rising minimal bid and its anti-sniping extension.

Each class holds the storage its methods update in place. Methods state their whole new state and the invariant they keep. Lemmas state the properties that relate several calls.

## Model

| member | source | states |
|---|---|---|
| TypesV2.ByteTypeMask | pallets/ajuna-awesome-avatars/src/types/avatar/tools/v2/types.rs:10-14 | a high-strand write keeps the low nibble (0x0F, the complement of 0xF0), a low-strand write keeps the high nibble, a full write keeps all 8 bits |
| TypesV2.ItemTypeIntoByte | pallets/ajuna-awesome-avatars/src/types/avatar/tools/v2/types.rs:60-75 | item type codes lie in 1..6 and decoding a code gives the item type back |
| TypesV2.ItemTypeFromByte | pallets/ajuna-awesome-avatars/src/types/avatar/tools/v2/types.rs:77-89 | a byte outside 1..6 decodes to the default item type, `Pet` |
| TypesV2.RarityIntoByte | pallets/ajuna-awesome-avatars/src/types/avatar/tools/v2/types.rs:91-120 | rarity codes lie in 1..6 and decoding a code gives the rarity back |
| TypesV2.RarityFromByte | pallets/ajuna-awesome-avatars/src/types/avatar/tools/v2/types.rs:102-114 | a byte outside 1..6 decodes to the default rarity, `Common` |
| TypesV2.RarityOrderFollowsCodes | pallets/ajuna-awesome-avatars/src/types/avatar/tools/v2/types.rs:91-100 | the derived order on rarities (declaration order) is exactly the order of their byte codes, both directions |
| TypesV2.PetItemIntoByte | pallets/ajuna-awesome-avatars/src/types/avatar/tools/v2/types.rs:122-145 | pet item codes lie in 1..3 and decode back to the same pet item |
| TypesV2.PetItemFromByte | pallets/ajuna-awesome-avatars/src/types/avatar/tools/v2/types.rs:130-139 | a byte outside 1..3 decodes to the default, `Pet` |
| TypesV2.EquipableIntoByte | pallets/ajuna-awesome-avatars/src/types/avatar/tools/v2/types.rs:147-178 | equipable codes lie in 1..7 and decode back to the same equipable |
| TypesV2.EquipableFromByte | pallets/ajuna-awesome-avatars/src/types/avatar/tools/v2/types.rs:159-172 | a byte outside 1..7 decodes to the default, `ArmorBase` |
| TypesV2.EquipableFromBytes | pallets/ajuna-awesome-avatars/src/types/avatar/tools/v2/types.rs:180-192 | the second decoder agrees with `from_byte` on every byte |
| TypesV2.ArmorWeaponPartition | pallets/ajuna-awesome-avatars/src/types/avatar/tools/v2/types.rs:194-205 | every equipable is armor or weapon and never both; armor is exactly codes 1..4, weapon exactly 5..7 |
| TypesV2.PetTypeIntoByte | pallets/ajuna-awesome-avatars/src/types/avatar/tools/v2/types.rs:208-224 | pet type codes lie in 1..7 and decode back to the same pet type |
| TypesV2.PetTypeFromByte | pallets/ajuna-awesome-avatars/src/types/avatar/tools/v2/types.rs:208-218 | a byte outside 1..7 decodes to the `#[default]` pet type, `TankyBulldog` |
| TypesV2.PetPartIntoByte | pallets/ajuna-awesome-avatars/src/types/avatar/tools/v2/types.rs:226-242 | pet part codes lie in 1..7 |
| TypesV2.SlotIntoByte | pallets/ajuna-awesome-avatars/src/types/avatar/tools/v2/types.rs:244-261 | slot codes lie in 1..9 but are never 7, and decode back to the same slot |
| TypesV2.SlotFromByte | pallets/ajuna-awesome-avatars/src/types/avatar/tools/v2/types.rs:244-255 | 7 and any byte outside 1..9 decode to the `#[default]` slot, `Head` |
| TypesV2.MaterialIntoByte | pallets/ajuna-awesome-avatars/src/types/avatar/tools/v2/types.rs:263-280 | material codes lie in 1..8 and decode back to the same material |
| TypesV2.MaterialFromByte | pallets/ajuna-awesome-avatars/src/types/avatar/tools/v2/types.rs:263-274 | a byte outside 1..8 decodes to the `#[default]` material, `Polymers` |
| TypesV2.EssenceIntoByte | pallets/ajuna-awesome-avatars/src/types/avatar/tools/v2/types.rs:282-294 | essence codes lie in 1..3 |
| TypesV2.BlueprintIntoByte | pallets/ajuna-awesome-avatars/src/types/avatar/tools/v2/types.rs:296-306 | the only blueprint code is 1 |
| TypesV2.SpecialIntoByte | pallets/ajuna-awesome-avatars/src/types/avatar/tools/v2/types.rs:308-318 | the only special code is 1 |
| TypesV2.DecodersInvertEncoders | pallets/ajuna-awesome-avatars/src/types/avatar/tools/v2/types.rs:77-172 | on every valid code each decoder is a right inverse of its encoder (encode(decode(b)) == b), the other half of the round trip |
| TypesV2.SubTypeCodesAreNibbles | pallets/ajuna-awesome-avatars/src/types/avatar/tools/v2/types.rs:122-294 | every sub-type code is non-zero and fits in the low nibble of a DNA byte |
| AvatarTypes.ByteTypeMasksSplitTheByte | pallets/ajuna-awesome-avatars/src/types/avatar/types.rs:1-6 | the low-strand and high-strand keep-masks are disjoint and together make the full-byte mask |
| AvatarTypes.ItemTypeCodesAreOneToSix | pallets/ajuna-awesome-avatars/src/types/avatar/types.rs:40-48 | item type codes are 1..6, distinct per variant, every code in 1..6 is some item type's, and the default `Pet` has code 1 |
| AvatarTypes.SlotCodesSkipSeven | pallets/ajuna-awesome-avatars/src/types/avatar/types.rs:110-120 | slot codes are 1..9 without 7, the weapon slots are 8 and 9, codes are distinct and every other code of 1..9 is some slot's |
| AvatarTypes.MaterialCodesAreOneToEight | pallets/ajuna-awesome-avatars/src/types/avatar/types.rs:123-133 | material codes are exactly 1..8, one per material |
| AvatarTypes.EquipablesAreArmorOrWeapon | pallets/ajuna-awesome-avatars/src/types/avatar/types.rs:59-84 | `is_armor` and `is_weapon` split the equipables, and armor is exactly the codes up to 4 |
| ToolsConstants.ItemTablesSumToOneThousand | pallets/ajuna-awesome-avatars/src/types/avatar/tools/v2/constants.rs:9-136 | the item-type weights of each of the three packs sum to 1000 |
| ToolsConstants.SubTypeTablesSumToOneThousand | pallets/ajuna-awesome-avatars/src/types/avatar/tools/v2/constants.rs:18-187 | every sub-type table of every pack sums to 1000 |
| ToolsConstants.SlotAndPetTypeTablesSumToOneThousand | pallets/ajuna-awesome-avatars/src/types/avatar/tools/v2/constants.rs:189-210 | the armor-slot, weapon-slot and pet-type tables sum to 1000 |
| ToolsConstants.NeverRollsBlueprintOrSpecial | pallets/ajuna-awesome-avatars/src/types/avatar/tools/v2/constants.rs:9-136 | no roll of at least 1 yields a blueprint or a special item, because both carry weight 0 in every pack |
| ToolsConstants.NeverRollsPlainPet | pallets/ajuna-awesome-avatars/src/types/avatar/tools/v2/constants.rs:18-139 | a roll in 1..1000 never yields a plain pet from any pack's pet table |
| ToolsConstants.SpecialPackPetIsEgg | pallets/ajuna-awesome-avatars/src/types/avatar/tools/v2/constants.rs:138-139 | every roll in 1..1000 of the special pack's pet table yields an egg |
| ToolsConstants.StackProbabilityIsFivePercent | pallets/ajuna-awesome-avatars/src/types/avatar/tools/v2/constants.rs:1-6 | the stack probability 13/256 is 5 % to the nearest percent, and at most 8 items stack |
| MintConstants.SameTablesAsTools | pallets/ajuna-awesome-avatars/src/types/avatar/mint/v2/constants.rs:4-182 | each table of the mint iteration is equal, weight for weight, to the tools iteration's |
| MintConstants.TablesSumToOneThousand | pallets/ajuna-awesome-avatars/src/types/avatar/mint/v2/constants.rs:4-182 | every item-type and sub-type table of every pack sums to 1000 |
| MintConstants.NeverRolledItems | pallets/ajuna-awesome-avatars/src/types/avatar/mint/v2/constants.rs:4-182 | no roll yields a blueprint or special item, no roll in 1..1000 a plain pet, and on the special pack every such pet roll is an egg |
| SlotRoller.TotalMonotone | pallets/ajuna-awesome-avatars/src/types/avatar/mint/v2/slot_roller.rs:31-38 | the running totals of the slot weights, which the roll is measured against, never decrease along the table |
| SlotRoller.FirstReachingFinds | pallets/ajuna-awesome-avatars/src/types/avatar/mint/v2/slot_roller.rs:31-38 | the search from a slot finds the first slot whose running total reaches the roll, and runs off the end exactly when none does |
| SlotRoller.RolledIsFirstReaching | pallets/ajuna-awesome-avatars/src/types/avatar/mint/v2/slot_roller.rs:24-41 | the item rolled is that of the first slot whose running total reaches the roll; the default is returned exactly when the roll exceeds the table's total |
| SlotRoller.SelectedSlotIsUnique | pallets/ajuna-awesome-avatars/src/types/avatar/mint/v2/slot_roller.rs:31-38 | a roll selects at most one slot |
| SlotRoller.SelectsIsAnInterval | pallets/ajuna-awesome-avatars/src/types/avatar/mint/v2/slot_roller.rs:31-38 | for a roll of at least 1, a slot is selected exactly when the roll lies above the total before it and within the total after it |
| SlotRoller.ZeroWeightNeverSelected | pallets/ajuna-awesome-avatars/src/types/avatar/mint/v2/slot_roller.rs:31-38 | a roll of at least 1 never selects a slot of weight 0 |
| SlotRoller.RollWithinTotalSelects | pallets/ajuna-awesome-avatars/src/types/avatar/mint/v2/slot_roller.rs:24-41 | every roll from 1 to the table's total selects some slot |
| SlotRoller.RolledSlotHasWeight | pallets/ajuna-awesome-avatars/src/types/avatar/mint/v2/slot_roller.rs:24-41 | a roll within the total gives the item of a slot of non-zero weight |
| SlotRoller.IntervalSize | pallets/ajuna-awesome-avatars/src/types/avatar/mint/v2/slot_roller.rs:5-6 | there are exactly b - a rolls in (a, b] |
| SlotRoller.SlotShareIsItsWeight | pallets/ajuna-awesome-avatars/src/types/avatar/mint/v2/slot_roller.rs:5-8 | on a table summing to 1000, exactly as many of the rolls 1..1000 select a slot as its per-mille weight |
| SlotRoller.LittleEndianU32 | pallets/ajuna-awesome-avatars/src/types/avatar/mint/v2/slot_roller.rs:21 | the low byte of the word read from four bytes is the first byte (the little-endian reading of from_ne_bytes) |
| SlotRoller.RollNumber | pallets/ajuna-awesome-avatars/src/types/avatar/mint/v2/slot_roller.rs:16-22 | the roll is always in 1..1000 (and every such roll is reached, by RollNumberReachesEveryRoll); the hash must hold four bytes, since the slice is taken before the conversion |
| SlotRoller.RollNumberReachesEveryRoll | pallets/ajuna-awesome-avatars/src/types/avatar/mint/v2/slot_roller.rs:16-22 | every roll in 1..1000 is produced by some hash |
| SlotRoller.RollOn | pallets/ajuna-awesome-avatars/src/types/avatar/mint/v2/slot_roller.rs:24-41 | the saturating-subtraction loop returns exactly the first-reaching item of the table for the hash's roll |
| SlotRoller.RollOnPackType | pallets/ajuna-awesome-avatars/src/types/avatar/mint/v2/slot_roller.rs:43-61 | rolls on the material, equipment or special table according to the pack type |
| SlotRoller.FirstReaching | pallets/ajuna-awesome-avatars/src/types/avatar/mint/v2/slot_roller.rs:31-38 | the search for the first slot whose running total reaches the roll ends at or after its start and at most at the table's length |
| HashProviders.HashProvider.constructor | pallets/ajuna-awesome-avatars/src/types/avatar/tools/v2/mod.rs:117-118 | a new provider holds the given hash with its cursor at the first byte |
| HashProviders.HashProvider.GetHashByte | pallets/ajuna-awesome-avatars/src/types/avatar/tools/v2/avatar_combinator.rs:135 | each draw returns the byte under the cursor and moves the cursor one place, wrapping after byte 31 |
| HashProviders.HashProvider.FullHash | pallets/ajuna-awesome-avatars/src/types/avatar/tools/v2/mod.rs:51-53 | a full hash is 32 bytes and does not move the cursor |
| HashProviders.DrawBytes | pallets/ajuna-awesome-avatars/src/types/avatar/tools/v2/avatar_combinator.rs:135 | k draws in a row give the next k bytes of the hash, in order, and move the cursor k places |
| HashProviders.RollOnWith | pallets/ajuna-awesome-avatars/src/types/avatar/tools/v2/avatar_mutator.rs:38-39 | a roll draws four bytes from the provider and gives the first-reaching item of the table for that word's roll |
| HashProviders.RollOnPackTypeWith | pallets/ajuna-awesome-avatars/src/types/avatar/tools/v2/mod.rs:122-130 | the pack's table is rolled with the next four bytes of the provider |
| AvatarUtils.WriteDnaAt | pallets/ajuna-awesome-avatars/src/types/avatar/tools/v2/avatar_utils.rs:234-244 | a strand write changes only the byte at its position and keeps the DNA's length |
| AvatarUtils.StrandAccessIsMaskArithmetic | pallets/ajuna-awesome-avatars/src/types/avatar/tools/v2/avatar_utils.rs:213-244 | the strand reads and writes are the source's mask-and-shift expressions: a high read is a shift right by 4, a low read a mask with 0x0F, a nibble write ors the kept nibble with the shifted or masked value |
| AvatarUtils.WriteDnaAtRoundTrip | pallets/ajuna-awesome-avatars/src/types/avatar/tools/v2/avatar_utils.rs:213-244 | reading a written strand back gives the value (its low nibble for a nibble strand) and the other nibble of the byte is unchanged |
| AvatarUtils.WriteDnaStrand | pallets/ajuna-awesome-avatars/src/types/avatar/tools/v2/avatar_utils.rs:222-232 | writing a strand of an avatar changes only its DNA, exactly as the slice write does |
| AvatarUtils.ReadAttribute | pallets/ajuna-awesome-avatars/src/types/avatar/tools/v2/avatar_utils.rs:275-286 | an attribute kept in a nibble reads below 16 |
| AvatarUtils.WriteAttribute | pallets/ajuna-awesome-avatars/src/types/avatar/tools/v2/avatar_utils.rs:288-304 | the attribute reads back as the value (low nibble for nibble attributes); every attribute kept in another strand, every other DNA byte, and the season, version and souls are unchanged |
| AvatarUtils.WriteKeepsOtherAttributes | pallets/ajuna-awesome-avatars/src/types/avatar/tools/v2/avatar_utils.rs:288-304 | a write to one attribute's strand leaves every attribute kept in another strand as it was |
| AvatarUtils.AttributeLayout | pallets/ajuna-awesome-avatars/src/types/avatar/tools/v2/avatar_utils.rs:275-286 | each attribute is the high or low nibble, or the whole, of its DNA byte 0 to 4 |
| AvatarUtils.ClassTypesShareANibble | pallets/ajuna-awesome-avatars/src/types/avatar/tools/v2/avatar_utils.rs:279-296 | class types 1 and 2 are kept in the same nibble, so they always read equal and writing one writes the other |
| AvatarUtils.WriteSpecByte | pallets/ajuna-awesome-avatars/src/types/avatar/tools/v2/avatar_utils.rs:344-370 | the spec byte reads back as the value; every other spec byte, every attribute and the souls are unchanged, and only DNA byte 4 + n changes |
| AvatarUtils.ReadFullSpecBytes | pallets/ajuna-awesome-avatars/src/types/avatar/tools/v2/avatar_utils.rs:306-310 | the sixteen spec bytes in order, entry n - 1 being spec byte n |
| AvatarUtils.ReadProgressArray | pallets/ajuna-awesome-avatars/src/types/avatar/tools/v2/avatar_utils.rs:372-376 | the progress array is the eleven DNA bytes after the spec bytes |
| AvatarUtils.CopyIntoSlice | pallets/ajuna-awesome-avatars/src/types/avatar/tools/v2/avatar_utils.rs:341 | a slice copy succeeds exactly when the range is ordered, within the DNA and as long as the value; then the range holds the value and every other byte is unchanged; an inverted range fails |
| AvatarUtils.WriteFullSpecBytes | pallets/ajuna-awesome-avatars/src/types/avatar/tools/v2/avatar_utils.rs:340-342 | copying 16 bytes into the 11-byte range 5..16 always fails (a length-mismatch panic) |
| AvatarUtils.WriteProgressArray | pallets/ajuna-awesome-avatars/src/types/avatar/tools/v2/avatar_utils.rs:419-421 | copying into the inverted range 21..11 always fails (a panic) |
| AvatarUtils.BlockReadersRangesFit | pallets/ajuna-awesome-avatars/src/types/avatar/tools/v2/avatar_utils.rs:306-310 | the ranges the readers use do fit: a copy into 5..21 or 21..32 succeeds and reads back as written |
| AvatarUtils.MatchProgressByteIsAStepUp | pallets/ajuna-awesome-avatars/src/types/avatar/tools/v2/avatar_utils.rs:414-417 | with at least two variations, two bytes match exactly when the first is one step above the second, or variations - 1 above it |
| AvatarUtils.MatchProgressArrays | pallets/ajuna-awesome-avatars/src/types/avatar/tools/v2/avatar_utils.rs:378-412 | every round tests position 1 only, so the result is all of the first array when position 1 matches (same rarity, not maxed, variations one step apart) and no match otherwise |
| AvatarUtils.UseAvatar | pallets/ajuna-awesome-avatars/src/types/avatar/tools/v2/avatar_utils.rs:423-449 | an avatar is used exactly when its quantity covers the request; the quantity drops by it and only DNA byte 3 changes; the last units hand over all souls, otherwise custom type 1 times the quantity (saturating) is taken from the souls; a refused use changes nothing and yields 0 |
| AvatarUtils.UsesAddUp | pallets/ajuna-awesome-avatars/src/types/avatar/tools/v2/avatar_utils.rs:427-436 | two uses that fit leave the same quantity as one use of their sum |
| AvatarUtils.EntryBit | pallets/ajuna-awesome-avatars/src/types/avatar/tools/v2/avatar_utils.rs:451-458 | an entry of code 1..8 sets bit code - 1 |
| AvatarUtils.EnumsToBitsSetsEntryBits | pallets/ajuna-awesome-avatars/src/types/avatar/tools/v2/avatar_utils.rs:451-458 | bit n of the encoding is set exactly when some entry's bit is n |
| AvatarUtils.EnumsToBitsIgnoresOrderAndRepeats | pallets/ajuna-awesome-avatars/src/types/avatar/tools/v2/avatar_utils.rs:451-458 | lists with the same entries encode the same, whatever their order or repetitions |
| AvatarUtils.BitsToEnumsDecodesSetBits | pallets/ajuna-awesome-avatars/src/types/avatar/tools/v2/avatar_utils.rs:482-491 | the decoding holds from_byte(m) for each set bit m, and nothing else |
| AvatarUtils.DecodingIsShiftedByOne | pallets/ajuna-awesome-avatars/src/types/avatar/tools/v2/avatar_utils.rs:451-491 | an entry of code c is encoded as bit c - 1 but decoded as from_byte(c - 1): the round trip is off by one |
| AvatarUtils.MaterialRoundTripIsShifted | pallets/ajuna-awesome-avatars/src/types/avatar/tools/v2/avatar_utils.rs:451-491 | encoding Electronics and decoding gives Polymers |
| AvatarUtils.InsertByCode | pallets/ajuna-awesome-avatars/src/types/avatar/tools/v2/avatar_utils.rs:462-463 | inserting into a sorted list keeps it sorted and adds exactly the entry |
| AvatarUtils.SortByCode | pallets/ajuna-awesome-avatars/src/types/avatar/tools/v2/avatar_utils.rs:462-497 | the sort is a sorted permutation of the list |
| AvatarUtils.SortedHeadIsMinimum | pallets/ajuna-awesome-avatars/src/types/avatar/tools/v2/avatar_utils.rs:497 | the head of the sorted list is an entry of the list with the lowest code |
| AvatarUtils.BitIndex | pallets/ajuna-awesome-avatars/src/types/avatar/tools/v2/avatar_utils.rs:499-502 | each entry of the bit index table is a single non-zero bit |
| AvatarUtils.BitIndexTable | pallets/ajuna-awesome-avatars/src/types/avatar/tools/v2/avatar_utils.rs:499-502 | the table is 0x80, 0x40, ..., 0x01 |
| AvatarUtils.PickPositions | pallets/ajuna-awesome-avatars/src/types/avatar/tools/v2/avatar_utils.rs:506-515 | one position per step i = 0, 2, 4, 6, so always four |
| AvatarUtils.PickPositionsShape | pallets/ajuna-awesome-avatars/src/types/avatar/tools/v2/avatar_utils.rs:506-516 | the shift by `bit_size - i` leaves only the first pair able to pick an entry other than 0, and that pair picks entry 0 (when the top two bits are clear) or nothing |
| AvatarUtils.BitsOrderToEnum | pallets/ajuna-awesome-avatars/src/types/avatar/tools/v2/avatar_utils.rs:493-519 | the loop pushes, for each of its four steps whose position is below 8, that entry of the sorted list, and an index past the list is a panic |
| AvatarUtils.BitPositionFirst | pallets/ajuna-awesome-avatars/src/types/avatar/tools/v2/avatar_utils.rs:508-513 | the first step's shift by 8 wraps to no shift, so its position is below 8 exactly when the top two bits are clear, and is then 0 |
| AvatarUtils.BitPositionLater | pallets/ajuna-awesome-avatars/src/types/avatar/tools/v2/avatar_utils.rs:508-513 | the later steps shift their two bits out entirely, so their position is always 0 |
| AvatarUtils.BitsOrderToEnumRepeatsMinimum | pallets/ajuna-awesome-avatars/src/types/avatar/tools/v2/avatar_utils.rs:493-519 | the result is the lowest entry repeated: four times when the order's top two bits are clear, three times otherwise; an empty list panics |
| AvatarUtils.FirstIndexWithCode | pallets/ajuna-awesome-avatars/src/types/avatar/tools/v2/avatar_utils.rs:467 | the search finds the first index holding the code, or reports that none does |
| AvatarUtils.EnumsOrderToBits | pallets/ajuna-awesome-avatars/src/types/avatar/tools/v2/avatar_utils.rs:460-480 | the loop computes the fold of index bits over the entries that the specification function defines |
| AvatarUtils.EnumsOrderBitsForgetPairOrder | pallets/ajuna-awesome-avatars/src/types/avatar/tools/v2/avatar_utils.rs:460-480 | two distinct entries encode to the same byte in either order, so the order of a pair is not recorded |
| AvatarUtils.WriteProgressBytes | pallets/ajuna-awesome-avatars/src/types/avatar/tools/v2/avatar_utils.rs:521-546 | positions 0 to 9 get the rarity, one higher where the byte is below the threshold; position 10 gets the plain rarity; every position gets its byte modulo the variations as its variation |
| AvatarUtils.ReadLowestProgressByte | pallets/ajuna-awesome-avatars/src/types/avatar/tools/v2/avatar_utils.rs:548-559 | the result is the least strand of the array: no strand is lower and some strand equals it |
| AvatarUtils.MaskTestIsBit | pallets/ajuna-awesome-avatars/src/types/avatar/tools/v2/avatar_utils.rs:488 | the mask test `bits & (1 << n) != 0` holds exactly when bit n of the byte is set |
| AvatarUtils.TopTwoBits | pallets/ajuna-awesome-avatars/src/types/avatar/tools/v2/avatar_utils.rs:509 | masking with two adjacent bit-index entries keeps only those two bits, so the first pair gives 0, 64, 128 or 192 |
| AvatarUtils.OrderedPicksStopAtPanic | pallets/ajuna-awesome-avatars/src/types/avatar/tools/v2/avatar_utils.rs:513-514 | once an index past the sorted list has panicked, the later steps do not change the outcome |
| AvatarUtils.OrderedPicksRepeatHead | pallets/ajuna-awesome-avatars/src/types/avatar/tools/v2/avatar_utils.rs:506-516 | with every later position 0, the ordered read is the lowest entry repeated, or a panic for an empty list |
| AvatarUtils.SortPair | pallets/ajuna-awesome-avatars/src/types/avatar/tools/v2/avatar_utils.rs:497 | sorting two entries puts the lower code first, whatever order they came in |
| AvatarUtils.WriteProgressPosition | pallets/ajuna-awesome-avatars/src/types/avatar/tools/v2/avatar_utils.rs:534-540 | one position gets the rarity (plus one when the byte falls under the threshold) as its high nibble and the byte modulo the variations as its low nibble |
| AvatarUtils.ProgressStep | pallets/ajuna-awesome-avatars/src/types/avatar/tools/v2/avatar_utils.rs:526-541 | one round of the loop keeps the positions before it and writes its own position |
| AvatarUtils.ProgressByteWrites | pallets/ajuna-awesome-avatars/src/types/avatar/tools/v2/avatar_utils.rs:534-540 | the two nibble writes of one step yield exactly the specified byte at that position and leave the others |
| AvatarUtils.LastRarityWrite | pallets/ajuna-awesome-avatars/src/types/avatar/tools/v2/avatar_utils.rs:543 | the closing write puts the plain rarity into the high nibble of position 10 |
| AttributeBlock.NibblesAreDivMod | pallets/ajuna-awesome-avatars/src/types/avatar/tools/v2/avatar_utils.rs:214-220 | the high and low nibble of a byte are its quotient and remainder by 16 |
| AttributeBlock.ReadsFromBlock | pallets/ajuna-awesome-avatars/src/types/avatar/tools/v2/avatar_utils.rs:275-286 | every attribute read is a field of the block formed by DNA bytes 0 to 4 |
| AttributeBlock.WriteAttributeOnBlock | pallets/ajuna-awesome-avatars/src/types/avatar/tools/v2/avatar_utils.rs:288-304 | an attribute write replaces one field of the block (a nibble field by the value's low nibble) and leaves every byte after the block unchanged |
| AttributeBlock.BlockDeterminesBytes | pallets/ajuna-awesome-avatars/src/types/avatar/tools/v2/avatar_utils.rs:275-304 | two avatars with the same block agree on bytes 0 to 4 |
| AttributeBlock.BlockReadsFirstBytes | pallets/ajuna-awesome-avatars/src/types/avatar/tools/v2/avatar_utils.rs:275-286 | the block depends on bytes 0 to 4 only |
| Builder.ArmorAssembleProgress | pallets/ajuna-awesome-avatars/src/types/avatar/tools/v2/avatar_utils.rs:121-125 | an armor piece starts with its own bit (bit code - 1, non-zero) as assemble progress; a weapon starts with none |
| Builder.OneEntryBit | pallets/ajuna-awesome-avatars/src/types/avatar/tools/v2/avatar_utils.rs:451-458 | encoding a one-entry list gives that entry's single bit |
| Builder.AvatarBuilder.WithDna | pallets/ajuna-awesome-avatars/src/types/avatar/tools/v2/avatar_utils.rs:46-48 | a builder from DNA holds a V2 avatar of the season with that DNA and no souls |
| Builder.AvatarBuilder.WithBaseAvatar | pallets/ajuna-awesome-avatars/src/types/avatar/tools/v2/avatar_utils.rs:50-52 | a builder from an avatar holds exactly that avatar |
| Builder.AvatarBuilder.WithAttribute | pallets/ajuna-awesome-avatars/src/types/avatar/tools/v2/avatar_utils.rs:54-64 | one field of the attribute block is replaced; every later DNA byte, the season, version and souls stay |
| Builder.AvatarBuilder.WithSpecByte | pallets/ajuna-awesome-avatars/src/types/avatar/tools/v2/avatar_utils.rs:66-69 | only DNA byte 4 + n changes, and spec byte n reads back as the value |
| Builder.AvatarBuilder.WithSoulCount | pallets/ajuna-awesome-avatars/src/types/avatar/tools/v2/avatar_utils.rs:71-74 | only the souls change |
| Builder.AvatarBuilder.WithProgressArray | pallets/ajuna-awesome-avatars/src/types/avatar/tools/v2/avatar_utils.rs:76-79 | the write always panics and leaves the avatar as it was |
| Builder.AvatarBuilder.AddQuantity | pallets/ajuna-awesome-avatars/src/types/avatar/tools/v2/avatar_utils.rs:81-89 | the quantity grows by the amount, held at 255, and never decreases; the rest of the block stays |
| Builder.AvatarBuilder.IntoPet | pallets/ajuna-awesome-avatars/src/types/avatar/tools/v2/avatar_utils.rs:91-94 | item type Pet with the given sub-type; the rest of the block stays |
| Builder.AvatarBuilder.IntoMaterial | pallets/ajuna-awesome-avatars/src/types/avatar/tools/v2/avatar_utils.rs:96-99 | item type Material with the given sub-type; the rest of the block stays |
| Builder.AvatarBuilder.IntoEssence | pallets/ajuna-awesome-avatars/src/types/avatar/tools/v2/avatar_utils.rs:101-111 | an uncommon essence of the given kind, class types and custom type 2 cleared, custom type 1 set to 1, the quantity given and one soul per unit |
| Builder.AvatarBuilder.WithKindAndClass | pallets/ajuna-awesome-avatars/src/types/avatar/tools/v2/avatar_utils.rs:102-133 | the first four attribute writes of the item builders: item type, sub-type and the shared class nibble, written twice so the second value wins |
| Builder.AvatarBuilder.WithCustomRarityQuantity | pallets/ajuna-awesome-avatars/src/types/avatar/tools/v2/avatar_utils.rs:134-167 | the next four attribute writes: custom type 1, rarity, quantity and custom type 2 |
| Builder.AvatarBuilder.IntoEquipable | pallets/ajuna-awesome-avatars/src/types/avatar/tools/v2/avatar_utils.rs:113-145 | a block of item type Equipable whose class nibble holds the pet type (the slot written first is overwritten), custom type 1 cleared, quantity 1; spec byte 1 is the assemble progress, spec bytes 2 to 8 are 0; the souls are the given points |
| Builder.AvatarBuilder.WithEquipableSpecBytes | pallets/ajuna-awesome-avatars/src/types/avatar/tools/v2/avatar_utils.rs:137-144 | spec byte 1 is the assemble progress and spec bytes 2 to 8 are 0; the block stays |
| Builder.AvatarBuilder.IntoBlueprint | pallets/ajuna-awesome-avatars/src/types/avatar/tools/v2/avatar_utils.rs:147-174 | a rare Blueprint whose quantity is the soul points cut to their low byte; spec bytes 1 to 3 hold the pattern's bit set, its order code and the equipable's code; spec bytes 4 to 7 are 1 |
| Builder.AvatarBuilder.WithBlueprintSpecBytes | pallets/ajuna-awesome-avatars/src/types/avatar/tools/v2/avatar_utils.rs:163-172 | the blueprint's spec-byte writes in order; the block stays |
| Builder.AvatarBuilder.IntoSpecial | pallets/ajuna-awesome-avatars/src/types/avatar/tools/v2/avatar_utils.rs:176-179 | item type Special with the given sub-type; the rest of the block stays |
| Builder.AvatarBuilder.Build | pallets/ajuna-awesome-avatars/src/types/avatar/tools/v2/avatar_utils.rs:181-183 | the avatar built so far |
| AvatarMutator.XorKeepsLowBitsClear | pallets/ajuna-awesome-avatars/src/types/avatar/tools/v2/avatar_mutator.rs:7-9 | the xor of two multiples of four is a multiple of four |
| AvatarMutator.ShiftByTwoClearsLowBits | pallets/ajuna-awesome-avatars/src/types/avatar/tools/v2/avatar_mutator.rs:8 | a byte shifted left by two has its two low bits clear |
| AvatarMutator.XorFoldLowBitsClear | pallets/ajuna-awesome-avatars/src/types/avatar/tools/v2/avatar_mutator.rs:7-9 | the fold of shifted strands always has its two low bits clear |
| AvatarMutator.RandomQuantityFromDnaStrands | pallets/ajuna-awesome-avatars/src/types/avatar/tools/v2/avatar_mutator.rs:7-9 | the quantity drawn from DNA strands is only ever 0 or 4, never any other value below 8 |
| AvatarMutator.SpliceDnaStrands | pallets/ajuna-awesome-avatars/src/types/avatar/tools/v2/avatar_mutator.rs:11-13 | the splice is the first strand as the high byte and the second as the low byte, and both can be read back from it |
| AvatarMutator.SplicedCount | pallets/ajuna-awesome-avatars/src/types/avatar/tools/v2/avatar_mutator.rs:121-162 | the count spliced from DNA bytes 26 and 27 is always in 1..25 |
| AvatarMutator.MutatePet | pallets/ajuna-awesome-avatars/src/types/avatar/tools/v2/avatar_mutator.rs:24-56 | a pet gets item type and sub-type Pet, keeps the rest of its block, every byte after the block and its souls, and draws nothing; a pet part draws a quantity byte, then rolls its slot and its pet type, four bytes per roll, and is the pet-part write of those values; an egg is built as a common fire dino and draws nothing |
| AvatarMutator.DrawPetPart | pallets/ajuna-awesome-avatars/src/types/avatar/tools/v2/avatar_mutator.rs:36-39 | a pet part draws 9 bytes: byte 0 is its quantity, bytes 1..4 roll the slot and bytes 5..8 roll the pet type |
| AvatarMutator.MutateMaterial | pallets/ajuna-awesome-avatars/src/types/avatar/tools/v2/avatar_mutator.rs:58-73 | the quantity is taken from DNA bytes 0 to 2 of the base avatar before anything is written, so it is 0 or 4; the avatar is the material write with that quantity; nothing is drawn |
| AvatarMutator.MutateEssence | pallets/ajuna-awesome-avatars/src/types/avatar/tools/v2/avatar_mutator.rs:75-86 | an uncommon essence of one unit and one soul: the whole attribute block is fixed, and every byte after it stays |
| AvatarMutator.RollTwice | pallets/ajuna-awesome-avatars/src/types/avatar/tools/v2/avatar_mutator.rs:100-101 | two rolls in a row read the next four bytes and then the four after them |
| AvatarMutator.MutateEquipable | pallets/ajuna-awesome-avatars/src/types/avatar/tools/v2/avatar_mutator.rs:88-110 | an uncommon equipable whose pet type is rolled on the first four drawn bytes and slot on the next four; the attribute block is fixed, spec byte 1 is its assemble progress, spec bytes 2 to 8 are 0, every byte from 13 on is the base avatar's, and its souls are the whole 16-bit splice of DNA bytes 26 and 27, with no reduction |
| AvatarMutator.MutateBlueprint | pallets/ajuna-awesome-avatars/src/types/avatar/tools/v2/avatar_mutator.rs:112-144 | a rare blueprint for an armor base with an empty pattern: the attribute block is fixed with the spliced count as quantity, spec bytes 1 and 2 are 0, spec byte 3 is the armor base, spec bytes 4 to 7 are 1, every byte from 12 on is the base avatar's, and its souls are the spliced count in 1..25 |
| AvatarMutator.EmptyPatternHasNoBits | pallets/ajuna-awesome-avatars/src/types/avatar/tools/v2/avatar_mutator.rs:129 | the empty pattern's bit set and order code are both 0 |
| AvatarMutator.MutateSpecial | pallets/ajuna-awesome-avatars/src/types/avatar/tools/v2/avatar_mutator.rs:146-165 | a special with custom type 0 and one unit, whose souls are the spliced count in 1..25; the whole attribute block is fixed, nothing is drawn and bytes after the block stay |
| DnaMutator.MutateDnaStrand | pallets/ajuna-awesome-avatars/src/types/avatar/mint/v2/dna_mutator.rs:13-21 | the in-place strand write on the DNA array is exactly the strand write of the V2 tools |
| DnaMutator.NibblePairWrite | pallets/ajuna-awesome-avatars/src/types/avatar/mint/v2/dna_mutator.rs:53-65 | writing the high then the low nibble of a byte leaves exactly the two nibbles written |
| DnaMutator.ComputeRandomQuantity | pallets/ajuna-awesome-avatars/src/types/avatar/mint/v2/dna_mutator.rs:23-25 | the quantity is below the maximum and no larger than DNA byte 0 or byte 6 |
| DnaMutator.ReductionShrinks | pallets/ajuna-awesome-avatars/src/types/avatar/mint/v2/dna_mutator.rs:24 | a remainder is below the divisor and at most the dividend |
| DnaMutator.PetPartQuantityBits | pallets/ajuna-awesome-avatars/src/types/avatar/mint/v2/dna_mutator.rs:70 | when byte 0 is 0x12, the and keeps only bits 1 and 4 of byte 6, so the quantity before reduction is 0, 2, 16 or 18 |
| DnaMutator.CopyDna | pallets/ajuna-awesome-avatars/src/types/avatar/mint/v2/dna_mutator.rs:36 | the working copy holds exactly the base avatar's DNA |
| DnaMutator.RollClassNibbles | pallets/ajuna-awesome-avatars/src/types/avatar/mint/v2/dna_mutator.rs:52-65 | byte 1 holds the rolled slot over the rolled pet type, and nothing else changes |
| DnaMutator.MutatePet | pallets/ajuna-awesome-avatars/src/types/avatar/mint/v2/dna_mutator.rs:31-129 | a pet becomes 0x11 with quantity 1 and keeps its souls; a pet part becomes 0x12 with rolled slot and pet type and a quantity (also its souls) from the and of bytes 0 and 6; an egg becomes 0x13 with custom type 2 from bytes 7 and 8, quantity 1, progress byte 1, and keeps its souls because the soul count it computes is dropped |
| DnaMutator.MutateIntoPet | pallets/ajuna-awesome-avatars/src/types/avatar/mint/v2/dna_mutator.rs:42-47 | byte 0 becomes 0x11 and byte 3 becomes 1; nothing else changes |
| DnaMutator.MutateIntoPetPart | pallets/ajuna-awesome-avatars/src/types/avatar/mint/v2/dna_mutator.rs:48-93 | the pet-part arm: item type and sub-type, class nibbles from the rolls, custom type 1, and the quantity stored as the souls |
| DnaMutator.MutateIntoEgg | pallets/ajuna-awesome-avatars/src/types/avatar/mint/v2/dna_mutator.rs:94-124 | the egg arm: bytes 0, 2, 3, 4 and 21 are rewritten and nothing else, and the souls are kept |
| DnaMutator.MutateMaterial | pallets/ajuna-awesome-avatars/src/types/avatar/mint/v2/dna_mutator.rs:131-155 | byte 0 becomes the item type over the material code, custom type 1 becomes 1 with the rarity kept, and the quantity, which is also the souls, is below the maximum |
| DnaMutator.MutateEssence | pallets/ajuna-awesome-avatars/src/types/avatar/mint/v2/dna_mutator.rs:157-181 | as for a material, with the essence's item type and code |
| DnaMutator.MutateEquipable | pallets/ajuna-awesome-avatars/src/types/avatar/mint/v2/dna_mutator.rs:183-229 | always fails: the body ends in todo!() |
| DnaMutator.MutateBlueprint | pallets/ajuna-awesome-avatars/src/types/avatar/mint/v2/dna_mutator.rs:231-288 | byte 0 becomes the item type over the blueprint code, byte 1 the rolled slot over the rolled pet type, custom type 1 becomes 1, and the quantity and the souls are the spliced count in 1..25 |
| DnaMutator.MutateSpecial | pallets/ajuna-awesome-avatars/src/types/avatar/mint/v2/dna_mutator.rs:290-313 | byte 0 becomes the item type over the special code, custom type 1 becomes 0, quantity 1, and the souls are the spliced count in 1..25 |
| WrappedAvatars.WrappedAvatar.constructor | pallets/ajuna-awesome-avatars/src/types/avatar/wrapped_avatar.rs:42-44 | the wrapper holds exactly the given avatar |
| WrappedAvatars.WrappedAvatar.ReadDnaStrand | pallets/ajuna-awesome-avatars/src/types/avatar/wrapped_avatar.rs:51-59 | the shift-and-mask read is the strand read of the V2 tools; a nibble reads below 16 |
| WrappedAvatars.WrappedAvatar.WriteDnaStrand | pallets/ajuna-awesome-avatars/src/types/avatar/wrapped_avatar.rs:61-71 | the in-place write leaves the held avatar equal to the V2 tools' strand write of the old one |
| WrappedAvatars.WrappedAvatar.ReadAttribute | pallets/ajuna-awesome-avatars/src/types/avatar/wrapped_avatar.rs:73-84 | this copy's attribute table reads the same as the V2 tools' |
| WrappedAvatars.WrappedAvatar.WriteAttribute | pallets/ajuna-awesome-avatars/src/types/avatar/wrapped_avatar.rs:86-97 | the in-place attribute write is the V2 tools' attribute write of the old avatar |
| WrappedAvatars.WrappedAvatar.ReadFullSpecBytes | pallets/ajuna-awesome-avatars/src/types/avatar/wrapped_avatar.rs:99-103 | the sixteen spec bytes, spec byte n at index n - 1 |
| WrappedAvatars.WrappedAvatar.ReadSpecByte | pallets/ajuna-awesome-avatars/src/types/avatar/wrapped_avatar.rs:105-124 | spec byte n is DNA byte 4 + n, as in the V2 tools |
| WrappedAvatars.WrappedAvatar.WriteFullSpecBytes | pallets/ajuna-awesome-avatars/src/types/avatar/wrapped_avatar.rs:126-128 | the copy always panics with a length mismatch and writes nothing |
| WrappedAvatars.WrappedAvatar.WriteSpecByte | pallets/ajuna-awesome-avatars/src/types/avatar/wrapped_avatar.rs:130-149 | the in-place write is the V2 tools' spec-byte write of the old avatar |
| WrappedAvatars.WrappedAvatar.ReadProgressArray | pallets/ajuna-awesome-avatars/src/types/avatar/wrapped_avatar.rs:151-155 | the eleven DNA bytes after the spec bytes |
| WrappedAvatars.WrappedAvatar.WriteProgressArray | pallets/ajuna-awesome-avatars/src/types/avatar/wrapped_avatar.rs:157-159 | the copy into the inverted range always panics and writes nothing |
| WrappedAvatars.NibbleWriteRoundTrip | pallets/ajuna-awesome-avatars/src/types/avatar/wrapped_avatar.rs:61-71 | a nibble written through the wrapper reads back as the value's low nibble; the byte's other nibble and every other byte keep their values |
| WrappedAvatars.ClassTypesShareANibble | pallets/ajuna-awesome-avatars/src/types/avatar/wrapped_avatar.rs:77-91 | through the wrapper, writing class type 2 sets what class type 1 reads |
| AvatarWrapper.ReadDnaStrand | pallets/ajuna-awesome-avatars/src/types/avatar/tools/v2/wrapped_avatar.rs:45-51 | the shift-and-mask read equals the V2 tools' strand read; a nibble reads below 16 |
| AvatarWrapper.WriteDnaStrand | pallets/ajuna-awesome-avatars/src/types/avatar/tools/v2/wrapped_avatar.rs:53-63 | the mask-and-or write equals the V2 tools' strand write |
| AvatarWrapper.ReadAttribute | pallets/ajuna-awesome-avatars/src/types/avatar/tools/v2/wrapped_avatar.rs:65-76 | this copy's attribute table reads the same as the V2 tools' |
| AvatarWrapper.WriteAttribute | pallets/ajuna-awesome-avatars/src/types/avatar/tools/v2/wrapped_avatar.rs:78-94 | this copy's attribute write equals the V2 tools' |
| AvatarWrapper.SameTypeIsFirstHighNibble | pallets/ajuna-awesome-avatars/src/types/avatar/tools/v2/wrapped_avatar.rs:40-43 | two avatars are of the same type exactly when the high nibbles of their first DNA bytes agree |
| AvatarWrapper.ReadSpecByte | pallets/ajuna-awesome-avatars/src/types/avatar/tools/v2/wrapped_avatar.rs:102-121 | spec byte n is DNA byte 4 + n |
| AvatarWrapper.WriteSpecByte | pallets/ajuna-awesome-avatars/src/types/avatar/tools/v2/wrapped_avatar.rs:127-153 | the spec-byte write equals the V2 tools' |
| AvatarWrapper.ReadFullSpecBytes | pallets/ajuna-awesome-avatars/src/types/avatar/tools/v2/wrapped_avatar.rs:96-100 | the sixteen spec bytes, spec byte n at index n - 1 |
| AvatarWrapper.WriteFullSpecBytes | pallets/ajuna-awesome-avatars/src/types/avatar/tools/v2/wrapped_avatar.rs:123-125 | always a length-mismatch panic |
| AvatarWrapper.ReadProgressArray | pallets/ajuna-awesome-avatars/src/types/avatar/tools/v2/wrapped_avatar.rs:155-159 | the eleven DNA bytes after the spec bytes |
| AvatarWrapper.WriteProgressArray | pallets/ajuna-awesome-avatars/src/types/avatar/tools/v2/wrapped_avatar.rs:161-163 | always an inverted-range panic |
| AvatarWrapper.StrandWriteRoundTrip | pallets/ajuna-awesome-avatars/src/types/avatar/tools/v2/wrapped_avatar.rs:45-63 | a nibble write reads back as the value's low nibble and keeps the other nibble; a full write reads back as the value; no other byte changes |
| AvatarWrapper.ClassTypesShareANibble | pallets/ajuna-awesome-avatars/src/types/avatar/tools/v2/wrapped_avatar.rs:65-94 | class types 1 and 2 read equal, and writing one is writing the other |
| MintV1.FirstFitIsFirst | pallets/ajuna-awesome-avatars/src/types/avatar/mint/v1.rs:64-73 | the tier walk finds the first entry the roll lands in, and finds none exactly when the roll lands in no entry |
| MintV1.Component | pallets/ajuna-awesome-avatars/src/types/avatar/mint/v1.rs:52-78 | a component's tier is one of the season's tiers and its variation is below the season's maximum; a failure is an indexing panic |
| MintV1.RandomComponent | pallets/ajuna-awesome-avatars/src/types/avatar/mint/v1.rs:52-78 | the loop with its running sum and early break computes exactly the specified component |
| MintV1.Components | pallets/ajuna-awesome-avatars/src/types/avatar/mint/v1.rs:42-48 | the first n DNA bytes are tier-over-variation bytes of the components read at positions 2i and 2i + 1, or the panic of the first failing component |
| MintV1.ComponentsStopWithinHash | pallets/ajuna-awesome-avatars/src/types/avatar/mint/v1.rs:45-61 | with a 32-byte hash, more than sixteen components cannot succeed |
| Outcomes.DnaFrom | pallets/ajuna-awesome-avatars/src/types/avatar/mint/v1.rs:49 | the DNA conversion succeeds exactly when the bytes fit the DNA bound, and then keeps them |
| MintV1.RandomDna | pallets/ajuna-awesome-avatars/src/types/avatar/mint/v1.rs:36-50 | the DNA has one byte per component of the season (at most sixteen), each the component's tier over its variation; it fails only by a panic, never by the DNA bound |
| MintV1.SoulsOf | pallets/ajuna-awesome-avatars/src/types/avatar/mint/v1.rs:22 | the souls of a minted avatar are in 1..100 |
| MintV1.MintOneAvatar | pallets/ajuna-awesome-avatars/src/types/avatar/mint/v1.rs:19-25 | a minted avatar has the mint's season and version, the DNA its identifier gives, and souls in 1..100 computed from that DNA; a failure is a panic |
| MintV1.CollectValues | pallets/ajuna-awesome-avatars/src/types/avatar/mint/v1.rs:27 | collecting succeeds exactly when every element does and then yields their values in order; otherwise it yields the first failing element's error |
| MintV1.MintAvatarSet | pallets/ajuna-awesome-avatars/src/types/avatar/mint/v1.rs:10-28 | exactly count avatars, each with its own identifier, the season, the mint version, souls in 1..100 and DNA of the season's component count; any panic aborts the whole set |
| MintV1.RollsBelowTheSumLandOnce | pallets/ajuna-awesome-avatars/src/types/avatar/mint/v1.rs:60-74 | without wrap-around, a roll below the table's sum lands in exactly one entry and a roll at or above it lands in none |
| MintV1.CumulativeIsPrefixSum | pallets/ajuna-awesome-avatars/src/types/avatar/mint/v1.rs:64-72 | without wrap-around, the running sum is the sum of the prefix |
| MintV1.PrefixSumBounded | pallets/ajuna-awesome-avatars/src/types/avatar/mint/v1.rs:64-72 | a prefix sums to no more than the whole table |
| MintV1.CumulativeGrows | pallets/ajuna-awesome-avatars/src/types/avatar/mint/v1.rs:64-72 | without wrap-around, the running sum never decreases |
| MintV1.LandingEntry | pallets/ajuna-awesome-avatars/src/types/avatar/mint/v1.rs:64-72 | a roll below the running sum after n entries lands in one of the first n |
| MintV2.RollForItemType | pallets/ajuna-awesome-avatars/src/types/avatar/mint/v2/mod.rs:64-72 | the item type is the roll on the pack's item table, and is never a blueprint nor a special item |
| MintV2.MintAvatarSet | pallets/ajuna-awesome-avatars/src/types/avatar/mint/v2/mod.rs:16-30 | always fails: the body ends in todo!() after the item-type roll |
| ToolsMinter.GenerateBaseAvatarDna | pallets/ajuna-awesome-avatars/src/types/avatar/tools/v2/mod.rs:49-57 | the base DNA is the 32 bytes of the provider's seventh full hash, and the IncorrectDna branch is never taken |
| ToolsMinter.RolledMutator | pallets/ajuna-awesome-avatars/src/types/avatar/tools/v2/mod.rs:59-109 | whatever the roll, the mutator is of the item kind asked for |
| ToolsMinter.GetMutatorFromItemType | pallets/ajuna-awesome-avatars/src/types/avatar/tools/v2/mod.rs:59-109 | one roll of four bytes picks the mutator the roll gives for the item kind: of that kind, the sub-type the pack's table selects, or the kind's default sub-type when the roll passes every slot |
| ToolsMinter.MutateFromBase | pallets/ajuna-awesome-avatars/src/types/avatar/tools/v2/mod.rs:143-149 | the avatar is exactly what the chosen mutator makes of the base avatar from the next nine bytes of the provider, and the cursor advances by the bytes that mutator draws (9, 8 or none) |
| ToolsMinter.MutationItemType | pallets/ajuna-awesome-avatars/src/types/avatar/tools/v2/mod.rs:143-149 | where the mutator writes the block itself (essences, equipables, blueprints, specials, pets), the minted avatar's item type is the mutator's kind |
| ToolsMinter.MintOne | pallets/ajuna-awesome-avatars/src/types/avatar/tools/v2/mod.rs:123-151 | one pass of the loop: the item type is the roll on the pack's item table over the first four drawn bytes and is never a blueprint nor special; the avatar is what the mutator rolled on the next four bytes makes of the base avatar built from the seventh full hash, from the nine bytes after; an essence or an equipable has the rolled item type |
| ToolsMinter.MintAvatarSetFor | pallets/ajuna-awesome-avatars/src/types/avatar/tools/v2/mod.rs:111-155 | never fails; returns exactly count avatars, the k-th with the k-th drawn identifier, all of the season and the mint version |
| ForgeV2.AllSameTypeAsIsForall | pallets/ajuna-awesome-avatars/src/types/avatar/forge/v2.rs:56-59 | the front-to-back `all` over the sacrifices holds exactly when every sacrifice has the leader's item type nibble |
| ForgeV2.DetermineForgeType | pallets/ajuna-awesome-avatars/src/types/avatar/forge/v2.rs:48-87 | the legacy classifier only ever answers Stack or None, and Stack only for a pet or material leader |
| ForgeV2.StackIffSameItemType | pallets/ajuna-awesome-avatars/src/types/avatar/forge/v2.rs:53-85 | a pet or material leader stacks if and only if every sacrifice shares its item type (always, with no sacrifices); every other leader forges nothing |
| ForgeV2.ForgeWith | pallets/ajuna-awesome-avatars/src/types/avatar/forge/v2.rs:15-23 | forging with the legacy forger always panics (unimplemented) |
| ForgeV2.CanBeForged | pallets/ajuna-awesome-avatars/src/types/avatar/forge/v2.rs:25-32 | the legacy forgeability check always panics (unimplemented) |
| ForgeV2.MinTier | pallets/ajuna-awesome-avatars/src/types/avatar/forge/v2.rs:34-36 | the legacy minimum tier always panics (unimplemented) |
| ForgeV2.LastVariation | pallets/ajuna-awesome-avatars/src/types/avatar/forge/v2.rs:38-40 | the legacy last variation always panics (unimplemented) |
| ToolsForger.AllPassIsForall | pallets/ajuna-awesome-avatars/src/types/avatar/tools/v2/mod.rs:250-271 | the short-circuit `all` walk over the sacrifices passes exactly when every sacrifice passes the test |
| ToolsForger.AnyPassesIsExists | pallets/ajuna-awesome-avatars/src/types/avatar/tools/v2/mod.rs:356-368 | the short-circuit `any` walk passes exactly when some sacrifice passes the test |
| ToolsForger.DetermineForgeType | pallets/ajuna-awesome-avatars/src/types/avatar/tools/v2/mod.rs:227-420 | the classifier never answers Mate or Special; Tinker, Breed and Equip come only from a pet, Stack only from a pet or material, Build only from a blueprint and Assemble only from an equipable |
| ToolsForger.LegendaryPetEquipsOnlyAlone | pallets/ajuna-awesome-avatars/src/types/avatar/tools/v2/mod.rs:247-279 | a legendary pet equips if and only if it has no sacrifices, because each sacrifice's test asks the leader itself to be an equipable; legendary pet parts and eggs forge nothing |
| ToolsForger.MythicalPetForgesNothing | pallets/ajuna-awesome-avatars/src/types/avatar/tools/v2/mod.rs:280 | a mythical pet leader forges nothing whatever the sacrifices |
| ToolsForger.LesserPetClassification | pallets/ajuna-awesome-avatars/src/types/avatar/tools/v2/mod.rs:281-325 | below legendary: a pet forges nothing; a pet part stacks iff all sacrifices are pet parts of its class type 2, else tinkers iff all are materials; an egg breeds iff all sacrifices are pet eggs |
| ToolsForger.MaterialStacksOnSameSubType | pallets/ajuna-awesome-avatars/src/types/avatar/tools/v2/mod.rs:328-340 | a material stacks if and only if every sacrifice has its sub-type nibble (the item type is not compared) |
| ToolsForger.BlueprintBuildsFromMaterials | pallets/ajuna-awesome-avatars/src/types/avatar/tools/v2/mod.rs:405-417 | a blueprint builds if and only if every sacrifice is a material |
| ToolsForger.EssenceAndSpecialForgeNothing | pallets/ajuna-awesome-avatars/src/types/avatar/tools/v2/mod.rs:341 | essence and special leaders forge nothing |
| ToolsForger.EquipableAssemblesWhen | pallets/ajuna-awesome-avatars/src/types/avatar/tools/v2/mod.rs:342-404 | an equipable assembles if and only if it is below legendary, is armor, some sacrifice matches it fully and every sacrifice is an armor part of its class types or an essence |
| ToolsForger.FullMatchIsFourAttributes | pallets/ajuna-awesome-avatars/src/types/avatar/tools/v2/mod.rs:356-368 | the full-match test holds iff item type, sub-type and both class types agree |
| ToolsForger.ArmorPartOrEssenceIsThreeAttributes | pallets/ajuna-awesome-avatars/src/types/avatar/tools/v2/mod.rs:370-392 | the armor-part test holds iff item type and both class types agree and the leader is armor, or the sacrifice is an essence |
| ToolsForger.NoSacrifices | pallets/ajuna-awesome-avatars/src/types/avatar/tools/v2/mod.rs:227-420 | with no sacrifices, materials and lesser pet parts stack, blueprints build, lesser eggs breed, legendary pets equip and equipables never assemble |
| ToolsForger.UnknownItemTypeIsPet | pallets/ajuna-awesome-avatars/src/types/avatar/tools/v2/mod.rs:232-236 | an item-type nibble outside 1 to 6 decodes as pet, so such a leader forges exactly as the same avatar with item type pet |
| ToolsForger.AllSameWhenTestsAgree | pallets/ajuna-awesome-avatars/src/types/avatar/tools/v2/mod.rs:250-271 | two leaders that every sacrifice passes or fails alike get the same `all` verdict |
| ToolsForger.AssembleAcceptsAWeaponSacrifice | pallets/ajuna-awesome-avatars/src/types/avatar/tools/v2/mod.rs:370-386 | because the armor check reads the leader's sub-type, an armor base assembles with a copy of itself plus a weapon of its class types |
| ToolsForger.AvatarsOf | pallets/ajuna-awesome-avatars/src/types/avatar/tools/v2/mod.rs:199-200 | the sacrifices' avatars are taken in order, one per forge item |
| ToolsForger.AllOfVersionIsForall | pallets/ajuna-awesome-avatars/src/types/avatar/tools/v2/mod.rs:194-196 | the version walk holds exactly when every sacrifice has the leader's avatar version |
| ToolsForger.CanBeForged | pallets/ajuna-awesome-avatars/src/types/avatar/tools/v2/mod.rs:188-210 | incompatible versions iff some sacrifice's version differs; invalid components iff versions agree and the classifier says None; otherwise Ok of the classifier's (non-None) answer |
| Combinator.ConsumedAll | pallets/ajuna-awesome-avatars/src/types/avatar/tools/v2/avatar_combinator.rs:215-217 | every sacrifice becomes a Consumed output of its id, in input order |
| Combinator.CountBelow | pallets/ajuna-awesome-avatars/src/types/avatar/tools/v2/avatar_combinator.rs:195-196 | the number of draws under the stacking threshold never exceeds the number of draws |
| Combinator.CountBelowIsZeroIffNoneBelow | pallets/ajuna-awesome-avatars/src/types/avatar/tools/v2/avatar_combinator.rs:195-211 | no essence hit happens exactly when every drawn byte is at or above the threshold |
| Combinator.StackedQuantityIsCappedTotal | pallets/ajuna-awesome-avatars/src/types/avatar/tools/v2/avatar_combinator.rs:177-188 | the saturating `reduce` of the sacrifices' quantities is their true sum held at 255 (0 with no sacrifices) |
| Combinator.StackedSoulsIsCappedTotal | pallets/ajuna-awesome-avatars/src/types/avatar/tools/v2/avatar_combinator.rs:177-188 | the saturating `reduce` of the sacrifices' souls is their true sum held at u32::MAX |
| Combinator.NewStackEssence | pallets/ajuna-awesome-avatars/src/types/avatar/tools/v2/avatar_combinator.rs:198-206 | the first hit mints a Glimmer essence of quantity 1 on the base DNA drawn from the provider |
| Combinator.AddEssenceUnit | pallets/ajuna-awesome-avatars/src/types/avatar/tools/v2/avatar_combinator.rs:207-208 | each later hit adds exactly one unit to that essence and changes nothing else |
| Combinator.StackDraw | pallets/ajuna-awesome-avatars/src/types/avatar/tools/v2/avatar_combinator.rs:196-210 | a byte under the threshold mints the essence or grows it by one; any other byte leaves it as it was |
| Combinator.CountBelowStep | pallets/ajuna-awesome-avatars/src/types/avatar/tools/v2/avatar_combinator.rs:195-196 | counting one more draw adds one exactly when that draw is under the threshold |
| Combinator.DrawStackEssence | pallets/ajuna-awesome-avatars/src/types/avatar/tools/v2/avatar_combinator.rs:191-211 | one byte is drawn per sacrifice; there is an essence iff some draw hit, and it holds as many units as draws hit |
| Combinator.StackAvatars | pallets/ajuna-awesome-avatars/src/types/avatar/tools/v2/avatar_combinator.rs:167-222 | stacking always succeeds: the leader's quantity is overwritten by the capped sum of the sacrifices', its souls grow by their capped sum with u32 wrap, every sacrifice is consumed in order, and an essence holding one unit per hit follows when any draw hit |
| Combinator.SelectById | pallets/ajuna-awesome-avatars/src/types/avatar/tools/v2/avatar_combinator.rs:155-162 | the sacrifices kept by id are sacrifices whose id is listed, taken in input order |
| Combinator.FitOtherIdsComeFromFitOthers | pallets/ajuna-awesome-avatars/src/types/avatar/tools/v2/avatar_combinator.rs:104-124 | every id pushed for a fitting sacrifice of another kind belongs to such a sacrifice |
| Combinator.SelectedAreFitOthers | pallets/ajuna-awesome-avatars/src/types/avatar/tools/v2/avatar_combinator.rs:155-162 | with distinct ids, the sacrifices `match_avatars` hands back are exactly fitting sacrifices not of the leader's kind |
| Combinator.WrappingSoulSumIsTotalModulo | pallets/ajuna-awesome-avatars/src/types/avatar/tools/v2/avatar_combinator.rs:153 | the `sum::<SoulCount>()` of the sacrifices' souls is their true total modulo 2^32 |
| Combinator.Without | pallets/ajuna-awesome-avatars/src/types/avatar/tools/v2/avatar_combinator.rs:142 | after `retain`, the score no longer holds the picked position and holds nothing it did not hold before |
| Combinator.Repeat | pallets/ajuna-awesome-avatars/src/types/avatar/tools/v2/avatar_combinator.rs:115 | the matching score grows by one whole progress array per fitting sacrifice of the leader's kind |
| Combinator.ClassifyStep | pallets/ajuna-awesome-avatars/src/types/avatar/tools/v2/avatar_combinator.rs:104-124 | classifying one more sacrifice extends the classification by that sacrifice alone |
| Combinator.ClassifyOne | pallets/ajuna-awesome-avatars/src/types/avatar/tools/v2/avatar_combinator.rs:105-114 | a sacrifice fits iff `match_progress_arrays` finds it a fit, and it is of the leader's kind iff item type and sub-type agree |
| Combinator.ClassifySacrifices | pallets/ajuna-awesome-avatars/src/types/avatar/tools/v2/avatar_combinator.rs:95-124 | the first loop's counters are the u8-wrapped numbers of same-kind fits and of non-fits, the score is the leader's array once per same-kind fit, and the ids are split by kind |
| Combinator.RollProgress | pallets/ajuna-awesome-avatars/src/types/avatar/tools/v2/avatar_combinator.rs:134-148 | each progress byte is either unchanged or raised once by 0x10 (wrapping) at a position the score named; a position past the array is an index panic |
| Combinator.MatchAvatars | pallets/ajuna-awesome-avatars/src/types/avatar/tools/v2/avatar_combinator.rs:89-165 | the match returns iff no sacrifice both fits and shares the leader's kind (otherwise the write-back of the progress array panics), and then adds all sacrifices' souls with u32 wrap, draws nothing and hands back the fitting other-kind sacrifices |
| Combinator.ConsumedIds | pallets/ajuna-awesome-avatars/src/types/avatar/tools/v2/avatar_combinator.rs:514-516 | every id listed becomes a Consumed output, in order |
| Combinator.LowestHighFrom | pallets/ajuna-awesome-avatars/src/types/avatar/tools/v2/avatar_utils.rs:548-559 | the least high nibble among the first bytes is at most each of them and is one of them |
| Combinator.LowestIsUnique | pallets/ajuna-awesome-avatars/src/types/avatar/tools/v2/avatar_combinator.rs:467-470 | any nibble that is at most every high progress nibble and equal to one of them is the lowest one |
| Combinator.ReadReachedRarity | pallets/ajuna-awesome-avatars/src/types/avatar/tools/v2/avatar_combinator.rs:465-470 | the rarity read from the lowest progress byte is the rarity the whole progress array has reached |
| Combinator.FirstArmorBase | pallets/ajuna-awesome-avatars/src/types/avatar/tools/v2/avatar_combinator.rs:485-497 | the filter finds nothing iff no selected sacrifice is an armor base, and otherwise the first one |
| Combinator.NoArmorBaseAmongOthers | pallets/ajuna-awesome-avatars/src/types/avatar/tools/v2/avatar_combinator.rs:472-505 | with distinct ids among the forged avatars, an armor base leader never finds an armor base among the handed-back sacrifices, since those are of another kind, so the spec-byte copy never happens |
| Combinator.AssembleWrites | pallets/ajuna-awesome-avatars/src/types/avatar/tools/v2/avatar_combinator.rs:472-512 | assembling sets the rarity to the one reached, copies spec byte 1 from the first armor-base sacrifice only when the leader is an armor base already of that rarity, and changes nothing else |
| Combinator.AssembleAvatars | pallets/ajuna-awesome-avatars/src/types/avatar/tools/v2/avatar_combinator.rs:454-525 | assembling returns iff matching does, and then the leader carries the matched souls and the assembling writes while the selected sacrifices are consumed |
| Combinator.BreedWrites | pallets/ajuna-awesome-avatars/src/types/avatar/tools/v2/avatar_combinator.rs:545-579 | breeding fails only on a hatching egg whose custom type 2 lists no pet type (a division by zero); a hatching egg becomes a pet of the listed type the byte picks; the rarity becomes the one reached |
| Combinator.Rate | pallets/ajuna-awesome-avatars/src/types/avatar/tools/v2/avatar_combinator.rs:575-579 | the rarity write changes only the rarity nibble |
| Combinator.HatchAndRate | pallets/ajuna-awesome-avatars/src/types/avatar/tools/v2/avatar_combinator.rs:562-579 | a hatching then rarity write sets class type 2 to the pet type, the sub-type to pet and the rarity, and keeps item type and custom type 1 |
| Combinator.BreedWritesIgnoreTheByte | pallets/ajuna-awesome-avatars/src/types/avatar/tools/v2/avatar_combinator.rs:545-554 | when the leader does not hatch, the byte it would draw plays no part |
| Combinator.BreedMatched | pallets/ajuna-awesome-avatars/src/types/avatar/tools/v2/avatar_combinator.rs:538-579 | after matching, only a hatching egg draws one byte from the provider, and the result is the breeding writes for that byte |
| Combinator.BreedAvatars | pallets/ajuna-awesome-avatars/src/types/avatar/tools/v2/avatar_combinator.rs:527-592 | breeding panics whenever a sacrifice fits and shares the leader's kind; otherwise it returns the breeding writes on the matched leader, consumes the selected sacrifices and draws one byte iff the egg hatches |
| Combinator.Hatch | pallets/ajuna-awesome-avatars/src/types/avatar/tools/v2/avatar_combinator.rs:562-572 | a hatching writes the pet type into class type 2 and pet into the sub-type, and changes nothing else |
| Combinator.UseOutput | pallets/ajuna-awesome-avatars/src/types/avatar/tools/v2/avatar_combinator.rs:273-284 | after using one unit a sacrifice with at most one unit is consumed; otherwise it is handed back forged, with its id |
| Combinator.UseOutputs | pallets/ajuna-awesome-avatars/src/types/avatar/tools/v2/avatar_combinator.rs:272-285 | every sacrifice gives one output, in order |
| Combinator.UseStep | pallets/ajuna-awesome-avatars/src/types/avatar/tools/v2/avatar_combinator.rs:272-285 | using one more sacrifice extends the outputs, the u32 soul sum and the success flag by that sacrifice alone |
| Combinator.UseSacrifices | pallets/ajuna-awesome-avatars/src/types/avatar/tools/v2/avatar_combinator.rs:270-285 | the shared use loop yields the used outputs, the soul points summed with wrap, and success iff every sacrifice had a unit |
| Combinator.MaterialPattern | pallets/ajuna-awesome-avatars/src/types/avatar/tools/v2/avatar_combinator.rs:234-242 | the sacrifices' pattern is each sub-type read as a material, in order |
| Combinator.LeaderPatternShape | pallets/ajuna-awesome-avatars/src/types/avatar/tools/v2/avatar_combinator.rs:246-260 | a leader pattern fails to read exactly when its spec byte lists no material; otherwise it is three or four copies of the lowest listed material |
| Combinator.OrderedPicksFailByIndex | pallets/ajuna-awesome-avatars/src/types/avatar/tools/v2/avatar_utils.rs:493-519 | the ordered read of a pattern can fail only by an index past the list |
| Combinator.ReadLeaderPattern | pallets/ajuna-awesome-avatars/src/types/avatar/tools/v2/avatar_combinator.rs:246-247 | reading one leader pattern yields the specified pattern, failing only by an index panic |
| Combinator.ReadLeaderPatterns | pallets/ajuna-awesome-avatars/src/types/avatar/tools/v2/avatar_combinator.rs:244-260 | the four reads succeed iff all four patterns are readable, in order, the first failure ending the call |
| Combinator.PieceForRead | pallets/ajuna-awesome-avatars/src/types/avatar/tools/v2/avatar_combinator.rs:291-303 | the piece is the one of the first of the four patterns equal to the sacrifices' pattern: armor base, then components 1 to 3 |
| Combinator.PieceNeedsOneMaterial | pallets/ajuna-awesome-avatars/src/types/avatar/tools/v2/avatar_combinator.rs:248-264 | a piece is found only for three or four sacrifices of a single material |
| Combinator.MintBlueprint | pallets/ajuna-awesome-avatars/src/types/avatar/tools/v2/avatar_combinator.rs:305-325 | tinkering mints a rare blueprint on the drawn base DNA, of the leader's pet and slot types, for the matched piece, coding the sacrifices' pattern and holding the soul points |
| Combinator.TinkerAvatars | pallets/ajuna-awesome-avatars/src/types/avatar/tools/v2/avatar_combinator.rs:224-331 | tinkering panics when a leader pattern lists no material; when no pattern matches or a sacrifice lacks a unit it returns the leader alone; otherwise it succeeds iff the soul points fit in a u8, returning the used sacrifices then the blueprint |
| Combinator.TinkerWithPatterns | pallets/ajuna-awesome-avatars/src/types/avatar/tools/v2/avatar_combinator.rs:262-330 | once the patterns are read, tinkering fails only by todo!(), returns nothing besides the leader when it does not apply, and succeeds iff the soul points fit in a u8 |
| Combinator.TinkerMint | pallets/ajuna-awesome-avatars/src/types/avatar/tools/v2/avatar_combinator.rs:269-328 | once a pattern matched, every sacrifice is used once and the blueprint minted, and the call succeeds iff the soul points are at most 255 |
| Combinator.BuildProp | pallets/ajuna-awesome-avatars/src/types/avatar/tools/v2/avatar_combinator.rs:395-436 | a round's build chance is 255 lowered by 38 per earlier round, saturating at 0 |
| Combinator.BuildMints | pallets/ajuna-awesome-avatars/src/types/avatar/tools/v2/avatar_combinator.rs:399-437 | the rounds mint no more equipables than there are rounds or soul points, and at least one when a soul point and a round exist |
| Combinator.BuildQuantities | pallets/ajuna-awesome-avatars/src/types/avatar/tools/v2/avatar_combinator.rs:348-355 | the first sacrifice needs one unit and the next ones the quantities in spec bytes 4 to 7 |
| Combinator.BuildNeedsOneMaterial | pallets/ajuna-awesome-avatars/src/types/avatar/tools/v2/avatar_combinator.rs:369-372 | only three or four sacrifices of one material can build, each with at least the quantity its position needs |
| Combinator.MintEquipable | pallets/ajuna-awesome-avatars/src/types/avatar/tools/v2/avatar_combinator.rs:403-428 | each build round mints a common equipable of the piece spec byte 3 names and the leader's pet and slot types, holding one soul |
| Combinator.BuildRound | pallets/ajuna-awesome-avatars/src/types/avatar/tools/v2/avatar_combinator.rs:400-436 | a round mints iff its byte is at most the round's chance and a soul point is left, spending one point |
| Combinator.BuildRounds | pallets/ajuna-awesome-avatars/src/types/avatar/tools/v2/avatar_combinator.rs:394-437 | the six rounds draw six bytes, mint exactly the specified number of equipables and leave the soul points minus that number |
| Combinator.Picks | pallets/ajuna-awesome-avatars/src/types/avatar/tools/v2/avatar_combinator.rs:439-443 | a position is picked at most once per draw, and never when it lies past the modulus |
| Combinator.PicksAddUp | pallets/ajuna-awesome-avatars/src/types/avatar/tools/v2/avatar_combinator.rs:439-443 | when every draw lands on a minted equipable, the picks sum to the number of draws: no spread soul point is lost |
| Combinator.PicksBelowNothing | pallets/ajuna-awesome-avatars/src/types/avatar/tools/v2/avatar_combinator.rs:439 | with no draws nothing is picked |
| Combinator.PicksBelowStep | pallets/ajuna-awesome-avatars/src/types/avatar/tools/v2/avatar_combinator.rs:439-443 | one more draw adds one pick exactly when it lands on one of the first positions |
| Combinator.CapU32 | pallets/ajuna-awesome-avatars/src/types/avatar/tools/v2/avatar_combinator.rs:442 | repeated `saturating_inc` is the true count held at u32::MAX |
| Combinator.Spread | pallets/ajuna-awesome-avatars/src/types/avatar/tools/v2/avatar_combinator.rs:439-443 | after spreading, each equipable's souls are raised by the number of draws that picked it, saturating |
| Combinator.SpreadStep | pallets/ajuna-awesome-avatars/src/types/avatar/tools/v2/avatar_combinator.rs:440-442 | one more draw raises only the equipable it picks, by one |
| Combinator.PicksFitStep | pallets/ajuna-awesome-avatars/src/types/avatar/tools/v2/avatar_combinator.rs:440-442 | the first k+1 draws land on minted equipables iff the first k do and the next does |
| Combinator.SpreadSouls | pallets/ajuna-awesome-avatars/src/types/avatar/tools/v2/avatar_combinator.rs:439-443 | spreading draws one byte per soul point left and succeeds iff every draw, modulo the number of used sacrifices, lands on a minted equipable; a zero modulus or a pick past them panics |
| Combinator.PicksFitUpTo | pallets/ajuna-awesome-avatars/src/types/avatar/tools/v2/avatar_combinator.rs:439-443 | once an early draw lands past the minted equipables the whole spreading fails |
| Combinator.MintedAll | pallets/ajuna-awesome-avatars/src/types/avatar/tools/v2/avatar_combinator.rs:445-446 | every generated equipable becomes a Minted output, in order |
| Combinator.MintedAvatars | pallets/ajuna-awesome-avatars/src/types/avatar/tools/v2/avatar_combinator.rs:445-446 | the avatars of Minted outputs are recovered in order |
| Combinator.BuildOutputsOf | pallets/ajuna-awesome-avatars/src/types/avatar/tools/v2/avatar_combinator.rs:445-451 | the used sacrifices followed by the spread equipables are what a successful build returns |
| Combinator.MintAndSpread | pallets/ajuna-awesome-avatars/src/types/avatar/tools/v2/avatar_combinator.rs:394-443 | the six rounds then the spreading produce the specified equipables, failing only by a panic of the spreading |
| Combinator.SpreadKeepsEquipables | pallets/ajuna-awesome-avatars/src/types/avatar/tools/v2/avatar_combinator.rs:439-443 | spreading changes only the equipables' souls: each holds one soul plus its picks |
| Combinator.SoulsAside | pallets/ajuna-awesome-avatars/src/types/avatar/tools/v2/avatar_combinator.rs:420-428 | whether an avatar is a build equipable does not depend on its souls |
| Combinator.BuildFrom | pallets/ajuna-awesome-avatars/src/types/avatar/tools/v2/avatar_combinator.rs:373-451 | once the sacrifices are used, the rounds and spreading produce the outcome specified from the provider's bytes |
| Combinator.BuildAvatars | pallets/ajuna-awesome-avatars/src/types/avatar/tools/v2/avatar_combinator.rs:333-452 | building panics unless the leader's first pattern equals the sacrifices' and each sacrifice has its position's quantity and a unit; when it applies, the used sacrifices then the minted equipables follow the unchanged leader |
| Combinator.MatchBuildPattern | pallets/ajuna-awesome-avatars/src/types/avatar/tools/v2/avatar_combinator.rs:343-372 | the build guard panics iff the leader's first pattern lists no material; a false answer means building does not apply, a true one that it applies iff every sacrifice has a unit |
| Combinator.BuildAppliesWhenMatched | pallets/ajuna-awesome-avatars/src/types/avatar/tools/v2/avatar_combinator.rs:369-372 | once the pattern and the quantities are met, building applies iff every sacrifice has a unit |
| Combinator.PatternFitsQuantities | pallets/ajuna-awesome-avatars/src/types/avatar/tools/v2/avatar_combinator.rs:349-371 | sacrifices matching the leader's first pattern are at most four, so `quantities[index]` never reads past its five entries |
| Combinator.SoulsOfPicked | pallets/ajuna-awesome-avatars/src/types/avatar/tools/v2/avatar_combinator.rs:439-443 | equipables holding one soul plus their picks hold, together, their count plus the picks |
| Combinator.BuildKeepsSouls | pallets/ajuna-awesome-avatars/src/types/avatar/tools/v2/avatar_combinator.rs:373-446 | no soul point is lost or made by a successful build: the minted equipables hold exactly the soul points the used sacrifices gave |
| Combinator.Occupancy | pallets/ajuna-awesome-avatars/src/types/avatar/tools/v2/avatar_combinator.rs:606-607 | the occupancy is each spec byte masked with the high nibble |
| Combinator.FilledSlots | pallets/ajuna-awesome-avatars/src/types/avatar/tools/v2/avatar_combinator.rs:614-615 | the filled-slot count is at most sixteen and zero iff every slot is empty |
| Combinator.SlotOf | pallets/ajuna-awesome-avatars/src/types/avatar/tools/v2/avatar_combinator.rs:612-613 | a sacrifice's slot is its class type 1 nibble, below sixteen |
| Combinator.EquippedSpecBytes | pallets/ajuna-awesome-avatars/src/types/avatar/tools/v2/avatar_combinator.rs:609-623 | equipping keeps the sixteen spec bytes sixteen |
| Combinator.LastOnSlot | pallets/ajuna-awesome-avatars/src/types/avatar/tools/v2/avatar_combinator.rs:609-623 | the last sacrifice going to a slot is found, or none goes to it |
| Combinator.EquippedSlot | pallets/ajuna-awesome-avatars/src/types/avatar/tools/v2/avatar_combinator.rs:609-623 | after the equip loop each slot holds its own byte when nothing goes to it or it is turned away, and otherwise spec byte 1 of the last sacrifice going to it |
| Combinator.EquipSlots | pallets/ajuna-awesome-avatars/src/types/avatar/tools/v2/avatar_combinator.rs:604-623 | the equip loop sums the sacrifices' souls with wrap and writes each accepted sacrifice's spec byte 1 into its slot |
| Combinator.EquipAvatars | pallets/ajuna-awesome-avatars/src/types/avatar/tools/v2/avatar_combinator.rs:594-635 | equipping always panics: sixteen spec bytes are written back into an eleven-byte slice |
| Combinator.MateAvatars | pallets/ajuna-awesome-avatars/src/types/avatar/tools/v2/avatar_combinator.rs:637-647 | mating always panics (unimplemented) |
| Combinator.SpecialAvatars | pallets/ajuna-awesome-avatars/src/types/avatar/tools/v2/avatar_combinator.rs:649-659 | special forging always panics (unimplemented) |
| Combinator.CombineAvatarsIn | pallets/ajuna-awesome-avatars/src/types/avatar/tools/v2/avatar_combinator.rs:11-87 | dispatch: None is refused as invalid components, the only non-panic failure; equip, mate and special always fail; stacking always succeeds |
| Combinator.ForgeWith | pallets/ajuna-awesome-avatars/src/types/avatar/tools/v2/mod.rs:164-186 | forging refuses mixed versions iff some sacrifice's version differs, refuses invalid components iff the classifier says None, otherwise fails only by a panic, and a stack always succeeds |
| BattleMogs.BreedTypeCycles | pallets/battle-mogs/src/lib.rs:860-877 | the breed type depends only on the block number modulo 80: DomDom, DomRez, RezDom, RezRez for twenty blocks each, repeating every 80 blocks |
| BattleMogs.Listing | pallets/battle-mogs/src/lib.rs:126-132 | the enumeration of all mogwais is the array map read at positions 0 to the count, a missing position reading as the zero hash |
| BattleMogs.OwnedListing | pallets/battle-mogs/src/lib.rs:139-145 | an account's enumeration is its array map read at positions 0 to its count |
| BattleMogs.SwapPop | pallets/battle-mogs/src/lib.rs:789-798 | swap and pop makes the enumeration one shorter |
| BattleMogs.SwapPopRemoves | pallets/battle-mogs/src/lib.rs:789-798 | swap and pop removes exactly one copy of the element at the position and keeps every other element |
| BattleMogs.AllListedOnce | pallets/battle-mogs/src/lib.rs:126-136 | when array and index are inverse bijections, the enumeration lists every live id exactly once |
| BattleMogs.OwnedListedOnce | pallets/battle-mogs/src/lib.rs:139-149 | an owner's enumeration holds exactly the mogwais it owns, each once |
| BattleMogs.AllPush | pallets/battle-mogs/src/lib.rs:757-759 | writing a new id at the count and indexing it there keeps the enumeration of all mogwais a bijection |
| BattleMogs.AllSwapPop | pallets/battle-mogs/src/lib.rs:789-798 | the swap and pop of `remove` keeps the enumeration of all mogwais a bijection over the remaining live ids |
| BattleMogs.AllSwapPopListing | pallets/battle-mogs/src/lib.rs:789-798 | on the listing, that removal is a swap and pop at the removed id's position |
| BattleMogs.OwnedPush | pallets/battle-mogs/src/lib.rs:761-763 | appending to the owner's array at its count keeps every account's enumeration |
| BattleMogs.OwnedSwapPop | pallets/battle-mogs/src/lib.rs:800-809 | the swap and pop on the owner's array keeps every account's enumeration |
| BattleMogs.OwnedSwapPopListed | pallets/battle-mogs/src/lib.rs:800-809 | after the owner's swap and pop, each position below a count holds a mogwai of that account indexed back to it |
| BattleMogs.OwnedSwapPopPlaced | pallets/battle-mogs/src/lib.rs:800-809 | after the owner's swap and pop, each owned mogwai sits at the position its index gives |
| BattleMogs.OwnedSwapPopListing | pallets/battle-mogs/src/lib.rs:800-809 | on the owner's listing the removal is a swap and pop; every other account's listing is kept |
| BattleMogs.OwnedPushListing | pallets/battle-mogs/src/lib.rs:761-763 | appending to one account's array leaves every other account's listing as it was |
| BattleMogs.SacrificedGen | pallets/battle-mogs/src/lib.rs:445-449 | the new generation is the old one plus the jump when the jump is positive and the u32 sum is at most 16, and is otherwise unchanged |
| BattleMogs.ValidStorageListsOnce | pallets/battle-mogs/src/lib.rs:113-149 | in valid storage the enumerations list the live mogwais and each account's mogwais, each exactly once |
| BattleMogs.MintCountsFit | pallets/battle-mogs/src/lib.rs:745-751 | after a mint both counts still fit u64 |
| BattleMogs.MintRecordsMatch | pallets/battle-mogs/src/lib.rs:754-755 | after a mint every owned mogwai has a record and only those |
| BattleMogs.MintAllValid | pallets/battle-mogs/src/lib.rs:757-759 | a mint keeps the enumeration of all mogwais valid |
| BattleMogs.MintOwnedValid | pallets/battle-mogs/src/lib.rs:761-763 | a mint keeps every owned enumeration valid |
| BattleMogs.MintKeepsValid | pallets/battle-mogs/src/lib.rs:738-769 | minting a new id below the count limits keeps the storage valid |
| BattleMogs.MintAppends | pallets/battle-mogs/src/lib.rs:757-763 | minting appends the id to the enumeration of all mogwais and to the owner's, and to no other |
| BattleMogs.RemoveCountsFit | pallets/battle-mogs/src/lib.rs:776-782 | after a removal both counts still fit u64 |
| BattleMogs.RemoveRecordsMatch | pallets/battle-mogs/src/lib.rs:785-787 | after a removal every mogwai with an owner still has a record, and only those, bios included |
| BattleMogs.RemoveAllValid | pallets/battle-mogs/src/lib.rs:789-798 | the enumeration of all mogwais survives a removal by any caller |
| BattleMogs.RemoveOwnedValid | pallets/battle-mogs/src/lib.rs:800-809 | the owned enumerations survive a removal by the owner |
| BattleMogs.RemoveKeepsValid | pallets/battle-mogs/src/lib.rs:772-815 | removing a live mogwai by its owner keeps the storage valid |
| BattleMogs.RemoveAllPops | pallets/battle-mogs/src/lib.rs:789-798 | removing takes exactly one copy of the id out of the enumeration of all mogwais, by a swap and pop at its position |
| BattleMogs.RemoveListings | pallets/battle-mogs/src/lib.rs:800-809 | the owned listings after a removal, given only that the caller's array is filled below its count |
| BattleMogs.RemoveOwnedPops | pallets/battle-mogs/src/lib.rs:800-809 | removal by the owner pops the id from the owner's enumeration and leaves every other account's |
| BattleMogs.TransferCountsFit | pallets/battle-mogs/src/lib.rs:824-830 | after a transfer both counts still fit u64 |
| BattleMogs.TransferRecordsMatch | pallets/battle-mogs/src/lib.rs:843 | after a transfer every owned mogwai still has a record, and only those |
| BattleMogs.TransferAllValid | pallets/battle-mogs/src/lib.rs:818-857 | a transfer keeps the enumeration of all mogwais valid |
| BattleMogs.TransferIsPopThenPush | pallets/battle-mogs/src/lib.rs:835-851 | between two different accounts, the owned storage after a transfer is a swap and pop on the sender followed by an append on the receiver |
| BattleMogs.OwnedValidAfterPush | pallets/battle-mogs/src/lib.rs:844-851 | an append onto valid owned enumerations leaves them valid |
| BattleMogs.TransferPushesPopped | pallets/battle-mogs/src/lib.rs:835-851 | a transfer between different accounts appends to the receiver what the sender's pop left valid |
| BattleMogs.TransferOwnedValid | pallets/battle-mogs/src/lib.rs:835-851 | moving a mogwai between two different accounts keeps every owned enumeration |
| BattleMogs.TransferKeepsValid | pallets/battle-mogs/src/lib.rs:818-857 | transferring between two different accounts keeps the storage valid |
| BattleMogs.TransferListings | pallets/battle-mogs/src/lib.rs:835-851 | the listings after a transfer between different accounts, given only that both arrays are filled below their counts |
| BattleMogs.TransferMoves | pallets/battle-mogs/src/lib.rs:835-851 | a transfer pops the id from the sender's enumeration, appends it to the receiver's and leaves every other enumeration |
| BattleMogs.TransferToSelfLeavesHole | pallets/battle-mogs/src/lib.rs:824-851 | a transfer to oneself is not rejected: the owner's count grows by one and its old last position is left empty, so the owned enumeration breaks |
| BattleMogs.RecordsRewriteKeepsValid | pallets/battle-mogs/src/lib.rs:446-453 | rewriting the records and bios of live mogwais keeps the storage valid |
| BattleMogs.FedKeepsValid | pallets/battle-mogs/src/lib.rs:445-454 | the gains of `sacrifice_into` keep the storage valid and touch neither owners nor enumerations |
| BattleMogs.SacrificeIntoRecords | pallets/battle-mogs/src/lib.rs:445-456 | after `sacrifice_into` the target has the new generation and both intrinsic balances, and the sacrificed mogwai has no record left |
| BattleMogs.SacrificeIntoKeepsValid | pallets/battle-mogs/src/lib.rs:445-456 | sacrificing into another mogwai of the sender keeps the storage valid and takes one copy of the sacrificed id out of the enumeration of all mogwais |
| BattleMogs.TransferKeepsRecords | pallets/battle-mogs/src/lib.rs:843-851 | a transfer rewrites no record or bios, and only the owner of the moved id |
| BattleMogs.RecordRewriteKeepsValid | pallets/battle-mogs/src/lib.rs:495-497 | rewriting the record of one live mogwai keeps the storage valid |
| BattleMogs.BoughtKeepsValid | pallets/battle-mogs/src/lib.rs:483-497 | buying a live mogwai of another account keeps the storage valid |
| BattleMogs.BoughtRecords | pallets/battle-mogs/src/lib.rs:486-497 | after a purchase the buyer owns the mogwai, its price is zero and every other record and owner is unchanged |
| BattleMogs.MogwaiRegistry.constructor | pallets/battle-mogs/src/lib.rs:113-149 | the genesis storage has no mogwais and both counts are zero, and it is valid |
| BattleMogs.MogwaiRegistry.Mint | pallets/battle-mogs/src/lib.rs:738-769 | mint fails iff the id already has an owner or a count would overflow u64, then changing nothing; otherwise it records and appends the mogwai; validity is preserved |
| BattleMogs.MogwaiRegistry.Remove | pallets/battle-mogs/src/lib.rs:772-815 | remove fails iff the id has no owner or a count is zero, then changing nothing; otherwise it deletes the records and swaps and pops both enumerations; by the owner of a live id in valid storage it succeeds and keeps validity |
| BattleMogs.MogwaiRegistry.TransferFrom | pallets/battle-mogs/src/lib.rs:818-857 | transfer fails iff there is no owner, the owner is not `from`, or a count over- or underflows, then changing nothing; otherwise it moves the id between enumerations; between different accounts validity is preserved |
| BattleMogs.MogwaiRegistry.BuyMogwai | pallets/battle-mogs/src/lib.rs:463-502 | a purchase succeeds iff the mogwai exists, belongs to someone else, has a non-zero price within the maximum, the buyer is below the account limit and payment succeeds; the mogwai then moves to the buyer with price zero, and the inner transfer never fails on valid storage |
| BattleMogs.MogwaiRegistry.SacrificeInto | pallets/battle-mogs/src/lib.rs:421-459 | sacrificing into succeeds iff both mogwais exist, belong to the sender, differ, have a non-zero u8 rarity product and both have bios; then the target is fed and the sacrificed one removed; validity is preserved |
| Auction.WrapAddU64 | pallets/ajuna-auction/src/lib.rs:312 | the unchecked u64 addition of a release build is the true sum below the limit, and otherwise wraps to a value smaller than the first operand |
| Auction.PermillFromPercent | pallets/ajuna-auction/src/lib.rs:386 | a percentage becomes at most one million parts per million |
| Auction.BidStepIsATenth | pallets/ajuna-auction/src/lib.rs:57-58 | the minimal-bid step is exactly a tenth of the bid, rounded down, and positive from a bid of ten on |
| Auction.CheckNewAuctionAccepts | pallets/ajuna-auction/src/lib.rs:305-321 | an accepted auction starts now or later, has a name and an unlocked token of its owner, and, away from the u64 limit, ends more than MIN_AUCTION_DUR blocks after it starts; conversely such an auction is accepted, and a start in the past or a too-short duration gives its error |
| Auction.CheckNewAuctionAcceptsEndBeforeStart | pallets/ajuna-auction/src/lib.rs:311-314 | because `start + MIN_AUCTION_DUR` wraps at the u64 limit, an auction starting at u64::MAX and ending at block 100 is accepted |
| Auction.BidCheckAccepts | pallets/ajuna-auction/src/lib.rs:369-387 | a bid is accepted iff the bidder is not the owner, the block is strictly between start and end, the value reaches the minimal bid, exceeds the last bid (or is non-zero for a first bid), and value plus a tenth fits in u128 |
| Auction.PlacedRecord | pallets/ajuna-auction/src/lib.rs:384-387 | an accepted bid becomes the last bid, the next minimal bid is the value plus a tenth (above the value from ten on), and name, start, owner, type and token are unchanged |
| Auction.PlacedEnd | pallets/ajuna-auction/src/lib.rs:388-395 | away from the u64 limit a bid never moves the end earlier, leaves at least BID_ADD_BLOCKS blocks after the bid, and moves the end only when fewer than that were left |
| Auction.PlacedNearBlockLimitEndsEarlier | pallets/ajuna-auction/src/lib.rs:394 | within BID_ADD_BLOCKS of the u64 limit the extension wraps, and a bid moves the end into the past |
| Auction.NextBidIsHigher | pallets/ajuna-auction/src/lib.rs:374-387 | after an accepted bid, any further accepted bid is higher by at least a tenth |
| Auction.AuctionPallet.constructor | pallets/ajuna-auction/src/lib.rs:122-146 | the genesis state holds no auctions and the first id is zero, and is valid |
| Auction.AuctionPallet.NewAuction | pallets/ajuna-auction/src/lib.rs:329-346 | a new auction fails with the creation check's error, or when the next id would overflow, changing nothing; otherwise it takes the next id, records the auction, its owner and its end, and keeps the storage valid |
| Auction.AuctionPallet.RemoveAuction | pallets/ajuna-auction/src/lib.rs:356-364 | removal fails iff the auction is missing or has started, changing nothing; otherwise the auction and its owner entry go while its end-time entry stays |
| Auction.AuctionPallet.Bid | pallets/ajuna-auction/src/lib.rs:366-398 | a bid on a missing auction fails; otherwise the outcome is the bid check's, and an accepted bid rewrites only that auction's record, leaving the end-time index unchanged |

## Left out

- The hash provider's own source is not part of this model. It is modelled from its use: a 32-byte window read through a cursor that wraps modulo 32, while `full_hash` depends only on its argument. Randomness (`Pallet::random_hash`, the avatar identifiers, the season's mint hashes) enters as inputs.
- tools/v2/slot_roller.rs is not part of this model. The tools minter rolls through the same roller as mint/v2/slot_roller.rs: four hash bytes, little-endian, modulo 1000, plus one.
- mint/v2/mod.rs `roll_number` and `roll_on` are the slot roller's, line for line. They are modelled once, in `SlotRoller`.
- `FromByte` for `MaterialItemType`, `PetType` and `SlotType` is not part of this model. Each is taken to map its codes to its variants and every other byte to the default, as the other enums do.
- `into_pet_part`, `into_egg` and the two-argument `into_material` are not part of this model. They enter as the `Helpers` input, and the contracts of their callers hold for every such helper.
- Constants that are not defined in the modelled files are inputs: `PROGRESS_VARIATIONS` (`Variations`), `MAX_EQUIPPED_SLOTS` (`maxSlots`), `MAX_QUANTITY` and the armor-slot and pet-type tables of mint/v2/dna_mutator.rs, and `MAX_PERCENTAGE` and `is_batched` of mint/v1.rs.
- Floating point is not modelled. The match probability `BASE_PROGRESS_PROBABILITY + sacrifices × …` enters as the `probabilityMatch` function from the sacrifice count to a byte threshold. The stack test compares the hash byte with `STACK_PROBABILITY` (13, about 5% of 256) directly.
- Every `todo!()` (`forge/v2.rs` members, `mint/v2` `mint_avatar_set`, the equipable arm of the DNA mutator) is the error `Unimplemented`, as the panic it is. Panics are `Err` results, not aborted transactions.
- MintV1.RandomComponent: the running sum of the tier walk wraps at 256, as the byte type of the comparison makes it. The byte sum behind the souls is taken before the 32-bit wrap, which it cannot reach with 32-byte DNA.
- `enums_order_to_bits` assumes a 64-bit `usize`; `binary_search` over a list with duplicates is taken to find the first match.
- FRAME plumbing is not modelled: events, weights, extrinsic origins, currency transfers and locks, the NFT lock toggle, storage-version migrations.
- The battle-mogs extrinsics other than the index maintenance are not modelled: `transfer`, `sacrifice`, `set_price`, `morph`, `breed`, `hatch` and the rest. Only the guards and storage effects of `buy_mogwai` and `sacrifice_into` are.
- The battle-mogs `config_value` and the genetic `Breeding::sacrifice` are inputs (`maxMogwais`, `genJump`). A mogwai's bios are reduced to its intrinsic balance. Balances and the intrinsic sum are unbounded integers, so the sum's overflow noted as a TODO in the source is not modelled.
- BattleMogs.MogwaiRegistry.Remove: the registry stays valid only when `from` is the owner. The source checks only that some owner exists, and the model keeps that check.
- BattleMogs.MogwaiRegistry.TransferFrom: the registry stays valid only for `from` ≠ `to`. A transfer to oneself leaves a hole in the owner's list, as `TransferToSelfLeavesHole` shows.
- BattleMogs.MogwaiRegistry.SacrificeInto: the state is stated unchanged on error only for valid storage. In the source a failed dispatch is rolled back whatever the storage was.
- The auction pallet's `conclude_auction`, `on_finalize` and `update_auction` are not modelled. Neither are the currency reserve and unreserve of bids, or the auction types other than English (traits.rs is not part of this model).
- `is_owner` and the NFT lock state are inputs of `check_new_auction`. The `TimeUnderflow` error of `bid` cannot occur once the block is before the auction's end, and the model omits it.
- The anti-sniping extension of `bid` moves the auction's end but does not re-index it in `AuctionEndTime`, as in the source.
- `remove_auction` takes the auction out before it checks whether bidding has started. The model keeps the auction on that error, as the transaction rollback does.
- Block numbers are `u64` and balances `u128`, as in the pallet's test runtime. The `u128` limit is checked where the source checks it (the next minimal bid), and the unchecked block additions wrap.
- SlotRoller.RollNumber: requires a hash of at least four bytes. The source slices the first four bytes before the conversion and would panic on a shorter hash; the runtime's random hash is always 32 bytes.
- ToolsMinter.MintOne: the minted avatar's item type is stated only for essences and equipables. Pets, pet parts, eggs and materials are written through the `Helpers` input, and blueprints and specials are never rolled.
- Combinator.NoArmorBaseAmongOthers: stated only for forges whose avatar ids are distinct, an assumption the model makes. The hand-back filters the sacrifices by id (avatar_combinator.rs:157-161), so an armor base sharing the id of a matching sacrifice would be handed back too.
