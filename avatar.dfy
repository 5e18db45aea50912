/**
 * The avatar record, forge inputs and outputs, and the failures the engine
 * can end in.
 */
module Avatars {
  import opened Bits

  /** `SeasonId`, a `u16`. */
  type SeasonId = x: int | 0 <= x < 0x1_0000

  /** An avatar identifier: a 32-byte hash in the runtime, only ever compared. */
  type AvatarId = seq<Byte>

  datatype AvatarVersion = V1 | V2

  /**
   * `Avatar`: the DNA is a bounded vector of at most `DNA_CAPACITY` bytes;
   * the V2 engine always builds DNA of `V2_DNA_LENGTH` bytes.
   */
  datatype Avatar = Avatar(seasonId: SeasonId, version: AvatarVersion, dna: seq<Byte>, souls: U32)

  const DNA_CAPACITY: nat := 100
  const V2_DNA_LENGTH: nat := 32

  /** `ForgeItem`: an avatar with its identifier. */
  datatype ForgeItem = ForgeItem(id: AvatarId, avatar: Avatar)

  /** `ForgeType`, in the order of its codes 0..8. */
  datatype ForgeType = None | Stack | Tinker | Build | Assemble | Breed | Equip | Mate | Special

  /** What became of the leader: forged with a count of upgraded components, or consumed. */
  datatype LeaderForgeOutput = LeaderForged(item: ForgeItem, upgraded: Byte) | LeaderConsumed(id: AvatarId)

  /** What became of a sacrifice, or a newly minted avatar. */
  datatype ForgeOutput = Forged(item: ForgeItem, upgraded: Byte) | Minted(avatar: Avatar) | Consumed(id: AvatarId)
}

/**
 * How an operation of the engine can end besides success: the pallet's
 * dispatch errors, and the panics of the Rust code (reached `todo!()`, an
 * index out of bounds, a slice with an inverted range or of the wrong length,
 * a remainder by zero), which abort the call.
 */
module Outcomes {
  import opened Bits
  import Avatars

  datatype Failure =
    | IncorrectDna
    | IncompatibleAvatarVersions
    | InvalidForgeComponents
    | Unimplemented
    | IndexOutOfBounds
    | SliceRangeInverted
    | SliceLengthMismatch
    | DivisionByZero

  /** The failures that are Rust panics rather than dispatch errors. */
  predicate IsPanic(f: Failure)
  {
    f in {Unimplemented, IndexOutOfBounds, SliceRangeInverted, SliceLengthMismatch, DivisionByZero}
  }

  datatype Result<T> = Ok(value: T) | Err(error: Failure)

  datatype Option<T> = Nothing | Some(value: T)

  /** `Dna::try_from`: a byte vector within the DNA bound, or incorrect DNA. */
  function DnaFrom(bytes: seq<Byte>): (r: Result<seq<Byte>>)
    ensures r.Ok? <==> |bytes| <= Avatars.DNA_CAPACITY
    ensures r.Ok? ==> r.value == bytes
  {
    if |bytes| <= Avatars.DNA_CAPACITY then Ok(bytes) else Err(IncorrectDna)
  }
}
