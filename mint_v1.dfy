/**
 * The first minter (mint/v1.rs): each avatar's DNA is cut from its own
 * identifier, a 32-byte hash. Component `i` reads hash bytes `2i` and
 * `2i + 1`: the first picks a rarity tier on the season's cumulative
 * percentage table, the second a variation; the DNA byte is the tier in the
 * high nibble or-ed with the variation. The souls are the byte sum modulo
 * 100, plus one.
 *
 * The season is an input. `MAX_PERCENTAGE`, the season record and
 * `MintPackSize::is_batched` are not part of this model: the percentage
 * bound and whether the mint is batched are inputs too. The comparisons of
 * the tier walk put the percentage, the running sum and the table entries
 * in one byte type, so the running sum wraps at 256.
 */
module MintV1 {
  import opened Bits
  import opened Avatars
  import opened Outcomes

  /** The length of `T::Hash`. */
  const HASH_BYTES: nat := 32

  /** The part of the season the minter reads. */
  datatype Season = Season(
    maxComponents: nat,
    maxVariations: Byte,
    tiers: seq<Byte>,
    singleMintProbs: seq<Byte>,
    batchMintProbs: seq<Byte>)

  /** The running sum of the first `i` entries, wrapping at 256 as the byte addition does. */
  function Cumulative(probs: seq<Byte>, i: nat): Byte
    requires i <= |probs|
  {
    if i == 0 then 0 else (Cumulative(probs, i - 1) + probs[i - 1]) % 256
  }

  /** The roll lands in entry `i`: from the running sum before it up to, not including, the one after it. */
  predicate Fits(probs: seq<Byte>, roll: Byte, i: nat)
    requires i < |probs|
  {
    Cumulative(probs, i) <= roll < Cumulative(probs, i + 1)
  }

  /** The first entry from `i` on that the roll lands in, if any. */
  function FirstFitFrom(probs: seq<Byte>, roll: Byte, i: nat): Option<nat>
    decreases |probs| - i
  {
    if i >= |probs| then Nothing
    else if Fits(probs, roll, i) then Some(i)
    else FirstFitFrom(probs, roll, i + 1)
  }

  /** The walk finds the first entry the roll lands in, and finds nothing only when it lands in none. */
  lemma {:induction false} FirstFitIsFirst(probs: seq<Byte>, roll: Byte, i: nat)
    requires i <= |probs|
    ensures FirstFitFrom(probs, roll, i).Some? ==>
              var k := FirstFitFrom(probs, roll, i).value;
              i <= k < |probs| && Fits(probs, roll, k) &&
              forall j | i <= j < k :: !Fits(probs, roll, j)
    ensures FirstFitFrom(probs, roll, i).Nothing? <==> forall j | i <= j < |probs| :: !Fits(probs, roll, j)
    decreases |probs| - i
  {
    if i < |probs| && !Fits(probs, roll, i) {
      FirstFitIsFirst(probs, roll, i + 1);
    }
  }

  /** The table a mint reads: the batched one for a batched mint. */
  function ProbsFor(season: Season, batched: bool): seq<Byte>
  {
    if batched then season.batchMintProbs else season.singleMintProbs
  }

  /**
   * What `random_component` gives: the tier of the first entry the roll
   * lands in (the first tier when it lands in none) and the variation byte
   * modulo `max_variations`. It panics on a hash index past the end, an
   * empty tier list, a landing entry with no tier, and a zero divisor.
   */
  function Component(season: Season, hash: seq<Byte>, index: nat, batched: bool, maxPercentage: Byte)
    : (r: Result<(Byte, Byte)>)
    ensures r.Ok? ==> r.value.0 in season.tiers && r.value.1 < season.maxVariations
    ensures r.Err? ==> IsPanic(r.error)
  {
    if index >= |hash| then Err(IndexOutOfBounds)
    else if maxPercentage == 0 then Err(DivisionByZero)
    else if |season.tiers| == 0 then Err(IndexOutOfBounds)
    else
      var roll := hash[index] % maxPercentage;
      var fit := FirstFitFrom(ProbsFor(season, batched), roll, 0);
      if fit.Some? && fit.value >= |season.tiers| then Err(IndexOutOfBounds)
      else
        var tier := if fit.Some? then season.tiers[fit.value] else season.tiers[0];
        if index + 1 >= |hash| then Err(IndexOutOfBounds)
        else if season.maxVariations == 0 then Err(DivisionByZero)
        else Ok((tier, hash[index + 1] % season.maxVariations))
  }

  /**
   * `random_component`: the tier walk keeps the running sum and stops at
   * the first entry the roll lands in.
   */
  method RandomComponent(season: Season, hash: seq<Byte>, index: nat, batched: bool, maxPercentage: Byte)
    returns (r: Result<(Byte, Byte)>)
    ensures r == Component(season, hash, index, batched, maxPercentage)
  {
    if index >= |hash| {
      return Err(IndexOutOfBounds);
    }
    if maxPercentage == 0 {
      return Err(DivisionByZero);
    }
    var randomProb: Byte := hash[index] % maxPercentage;
    var probs := ProbsFor(season, batched);
    var cumulativeSum: Byte := 0;
    if |season.tiers| == 0 {
      return Err(IndexOutOfBounds);
    }
    var randomTier := season.tiers[0];
    var i := 0;
    while i < |probs|
      invariant 0 <= i <= |probs|
      invariant cumulativeSum == Cumulative(probs, i)
      invariant FirstFitFrom(probs, randomProb, i) == FirstFitFrom(probs, randomProb, 0)
      invariant randomTier == season.tiers[0]
      decreases |probs| - i
    {
      var newCumulativeSum: Byte := (cumulativeSum + probs[i]) % 256;
      if randomProb >= cumulativeSum && randomProb < newCumulativeSum {
        if i >= |season.tiers| {
          return Err(IndexOutOfBounds);
        }
        randomTier := season.tiers[i];
        break;
      }
      cumulativeSum := newCumulativeSum;
      i := i + 1;
    }
    if index + 1 >= |hash| {
      return Err(IndexOutOfBounds);
    }
    if season.maxVariations == 0 {
      return Err(DivisionByZero);
    }
    var randomVariation := hash[index + 1] % season.maxVariations;
    r := Ok((randomTier, randomVariation));
  }

  /** `((random_tier << 4) | random_variation) as u8`. */
  function ComponentByte(tier: Byte, variation: Byte): Byte
  {
    Or8(Shl8(tier, 4), variation)
  }

  /** The first `n` DNA bytes, or the panic of the first component that has one. */
  function Components(season: Season, hash: seq<Byte>, batched: bool, maxPercentage: Byte, n: nat)
    : (r: Result<seq<Byte>>)
    ensures r.Ok? ==> |r.value| == n
    ensures r.Ok? ==> forall i | 0 <= i < n ::
              Component(season, hash, 2 * i, batched, maxPercentage).Ok? &&
              var (tier, variation) := Component(season, hash, 2 * i, batched, maxPercentage).value;
              r.value[i] == ComponentByte(tier, variation)
    ensures r.Err? ==> IsPanic(r.error)
  {
    if n == 0 then Ok([])
    else
      var front := Components(season, hash, batched, maxPercentage, n - 1);
      if front.Err? then front
      else
        var c := Component(season, hash, 2 * (n - 1), batched, maxPercentage);
        if c.Err? then Err(c.error)
        else Ok(front.value + [ComponentByte(c.value.0, c.value.1)])
  }

  /** A component past the sixteenth reads beyond the 32-byte hash. */
  lemma {:induction false} ComponentsStopWithinHash(season: Season, hash: seq<Byte>, batched: bool,
                                                    maxPercentage: Byte, n: nat)
    requires |hash| == HASH_BYTES
    ensures Components(season, hash, batched, maxPercentage, n).Ok? ==> n <= HASH_BYTES / 2
  {
    if n > HASH_BYTES / 2 {
      var last := Component(season, hash, 2 * (n - 1), batched, maxPercentage);
      assert last.Err?;
    }
  }

  /**
   * `random_dna`: one byte a component. With a 32-byte hash at most sixteen
   * components succeed, so the DNA bound is never exceeded: it fails only by
   * a panic, never with `IncorrectDna`.
   */
  function RandomDna(season: Season, hash: seq<Byte>, batched: bool, maxPercentage: Byte): (r: Result<seq<Byte>>)
    requires |hash| == HASH_BYTES
    ensures r.Ok? ==> |r.value| == season.maxComponents <= HASH_BYTES / 2
    ensures r.Ok? ==> forall i | 0 <= i < season.maxComponents ::
              Component(season, hash, 2 * i, batched, maxPercentage).Ok? &&
              var (tier, variation) := Component(season, hash, 2 * i, batched, maxPercentage).value;
              r.value[i] == ComponentByte(tier, variation)
    ensures r.Err? ==> IsPanic(r.error)
  {
    var dna := Components(season, hash, batched, maxPercentage, season.maxComponents);
    ComponentsStopWithinHash(season, hash, batched, maxPercentage, season.maxComponents);
    if dna.Err? then Err(dna.error) else DnaFrom(dna.value)
  }

  /** `dna.iter().map(|x| *x as SoulCount).sum::<SoulCount>()`, before the `u32` wrap. */
  function ByteSum(dna: seq<Byte>): nat
  {
    if |dna| == 0 then 0 else ByteSum(dna[..|dna| - 1]) + dna[|dna| - 1]
  }

  /** The souls of a minted avatar: the byte sum, wrapped to `u32`, modulo 100, plus one. */
  function SoulsOf(dna: seq<Byte>): (r: U32)
    ensures 1 <= r <= 100
  {
    (ByteSum(dna) % 0x1_0000_0000) % 100 + 1
  }

  /**
   * One avatar of the set: its DNA cut from its identifier, the season and
   * version of the mint and the souls of that DNA, or the panic met.
   */
  function MintOne(seasonId: SeasonId, season: Season, version: AvatarVersion, avatarId: AvatarId,
                   batched: bool, maxPercentage: Byte): Result<(AvatarId, Avatar)>
    requires |avatarId| == HASH_BYTES
  {
    var dna := RandomDna(season, avatarId, batched, maxPercentage);
    if dna.Err? then Err(dna.error)
    else Ok((avatarId, Avatar(seasonId, version, dna.value, SoulsOf(dna.value))))
  }

  /** A minted avatar has the DNA its identifier gives, the mint's season and version, and the souls of its DNA. */
  lemma MintOneAvatar(seasonId: SeasonId, season: Season, version: AvatarVersion, avatarId: AvatarId,
                      batched: bool, maxPercentage: Byte)
    requires |avatarId| == HASH_BYTES
    ensures MintOne(seasonId, season, version, avatarId, batched, maxPercentage).Ok? ==>
              var a := MintOne(seasonId, season, version, avatarId, batched, maxPercentage).value;
              a.0 == avatarId && a.1.seasonId == seasonId && a.1.version == version
              && RandomDna(season, avatarId, batched, maxPercentage) == Ok(a.1.dna)
              && |a.1.dna| == season.maxComponents
              && a.1.souls == SoulsOf(a.1.dna) && 1 <= a.1.souls <= 100
    ensures MintOne(seasonId, season, version, avatarId, batched, maxPercentage).Err? ==>
              IsPanic(MintOne(seasonId, season, version, avatarId, batched, maxPercentage).error)
  {
  }

  /** `collect::<Result<Vec<_>, _>>()`: every value in order, or the first error. */
  function Collect<T>(rs: seq<Result<T>>): Result<seq<T>>
  {
    if |rs| == 0 then Ok([])
    else if rs[0].Err? then Err(rs[0].error)
    else
      var rest := Collect(rs[1..]);
      if rest.Err? then rest else Ok([rs[0].value] + rest.value)
  }

  /**
   * Collecting succeeds exactly when every element does, and then yields
   * their values in order; otherwise it yields the error of the first
   * failing element.
   */
  lemma {:induction false} CollectValues<T>(rs: seq<Result<T>>)
    ensures Collect(rs).Ok? <==> forall k | 0 <= k < |rs| :: rs[k].Ok?
    ensures Collect(rs).Ok? ==> |Collect(rs).value| == |rs| && forall k | 0 <= k < |rs| :: rs[k] == Ok(Collect(rs).value[k])
    ensures Collect(rs).Err? ==> exists k | 0 <= k < |rs| :: rs[k] == Err(Collect(rs).error) && forall j | 0 <= j < k :: rs[j].Ok?
  {
    if |rs| > 0 {
      CollectValues(rs[1..]);
      assert forall k | 1 <= k < |rs| :: rs[k] == rs[1..][k - 1];
      if rs[0].Ok? && Collect(rs[1..]).Err? {
        var k :| 0 <= k < |rs[1..]| && rs[1..][k] == Err(Collect(rs[1..]).error) && forall j | 0 <= j < k :: rs[1..][j].Ok?;
        assert rs[k + 1] == Err(Collect(rs).error);
        assert forall j | 0 <= j < k + 1 :: rs[j].Ok? by {
          forall j | 0 <= j < k + 1 ensures rs[j].Ok? {
            if j > 0 { assert rs[j] == rs[1..][j - 1]; }
          }
        }
      }
      if rs[0].Err? {
        assert rs[0] == Err(Collect(rs).error);
      }
    }
  }

  /**
   * `mint_avatar_set`: `count` avatars of the season and the mint version,
   * the DNA of each cut from its identifier; any panic aborts the whole set.
   */
  function MintAvatarSet(seasonId: SeasonId, season: Season, count: nat, version: AvatarVersion,
                         avatarIds: nat -> AvatarId, batched: bool, maxPercentage: Byte)
    : (r: Result<seq<(AvatarId, Avatar)>>)
    requires forall k: nat :: |avatarIds(k)| == HASH_BYTES
    ensures r.Ok? ==> |r.value| == count
    ensures r.Ok? ==> forall k | 0 <= k < count ::
              r.value[k].0 == avatarIds(k) && r.value[k].1.seasonId == seasonId &&
              r.value[k].1.version == version && 1 <= r.value[k].1.souls <= 100 &&
              |r.value[k].1.dna| == season.maxComponents
    ensures r.Err? ==> IsPanic(r.error)
  {
    var minted := seq(count, k requires 0 <= k < count => MintOne(seasonId, season, version, avatarIds(k), batched, maxPercentage));
    CollectValues(minted);
    forall k | 0 <= k < count {
      MintOneAvatar(seasonId, season, version, avatarIds(k), batched, maxPercentage);
    }
    Collect(minted)
  }

  /**
   * Without wrap-around (the table sums to at most 255), the entries cut
   * the rolls below the sum into consecutive intervals: a roll below the sum
   * lands in exactly one entry, and a roll at or above it in none, so it
   * gets the first tier.
   */
  lemma {:induction false} RollsBelowTheSumLandOnce(probs: seq<Byte>, roll: Byte)
    requires ByteSum(probs) <= 255
    ensures roll < ByteSum(probs) ==> exists i | 0 <= i < |probs| :: Fits(probs, roll, i)
    ensures roll >= ByteSum(probs) ==> forall i | 0 <= i < |probs| :: !Fits(probs, roll, i)
    ensures forall i, j | 0 <= i < j < |probs| :: !(Fits(probs, roll, i) && Fits(probs, roll, j))
  {
    CumulativeIsPrefixSum(probs, |probs|);
    assert probs[..|probs|] == probs;
    forall i, j | 0 <= i < j < |probs|
      ensures !(Fits(probs, roll, i) && Fits(probs, roll, j))
    {
      CumulativeIsPrefixSum(probs, i + 1);
      CumulativeIsPrefixSum(probs, j);
      CumulativeGrows(probs, i + 1, j);
    }
    forall i | 0 <= i <= |probs|
      ensures Cumulative(probs, i) <= ByteSum(probs)
    {
      CumulativeGrows(probs, i, |probs|);
    }
    if roll < ByteSum(probs) {
      var i := LandingEntry(probs, roll, |probs|);
    }
  }

  /** Without wrap-around, the running sum is the plain sum of the prefix. */
  lemma {:induction false} CumulativeIsPrefixSum(probs: seq<Byte>, i: nat)
    requires i <= |probs| && ByteSum(probs) <= 255
    ensures Cumulative(probs, i) == ByteSum(probs[..i])
  {
    PrefixSumBounded(probs, i);
    if i > 0 {
      CumulativeIsPrefixSum(probs, i - 1);
      assert probs[..i][..i - 1] == probs[..i - 1];
    }
  }

  /** A prefix sums to no more than the whole. */
  lemma {:induction false} PrefixSumBounded(probs: seq<Byte>, i: nat)
    requires i <= |probs|
    ensures ByteSum(probs[..i]) <= ByteSum(probs)
    decreases |probs| - i
  {
    if i < |probs| {
      PrefixSumBounded(probs, i + 1);
      assert probs[..i + 1][..i] == probs[..i];
    } else {
      assert probs[..i] == probs;
    }
  }

  /** Without wrap-around, the running sum never decreases. */
  lemma {:induction false} CumulativeGrows(probs: seq<Byte>, i: nat, j: nat)
    requires i <= j <= |probs| && ByteSum(probs) <= 255
    ensures Cumulative(probs, i) <= Cumulative(probs, j)
    decreases j - i
  {
    if i < j {
      CumulativeGrows(probs, i, j - 1);
      CumulativeIsPrefixSum(probs, j - 1);
      CumulativeIsPrefixSum(probs, j);
      assert probs[..j][..j - 1] == probs[..j - 1];
    }
  }

  /** A roll below the running sum after `n` entries lands in one of the first `n`. */
  lemma {:induction false} LandingEntry(probs: seq<Byte>, roll: Byte, n: nat) returns (i: nat)
    requires n <= |probs| && ByteSum(probs) <= 255
    requires roll < Cumulative(probs, n)
    ensures i < n && Fits(probs, roll, i)
  {
    if n == 0 {
      assert false;
    } else if roll >= Cumulative(probs, n - 1) {
      i := n - 1;
    } else {
      i := LandingEntry(probs, roll, n - 1);
    }
  }
}
