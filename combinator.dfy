/**
 * The V2 combinator (tools/v2/avatar_combinator.rs): the forge type the
 * forger classified picks one of the combination routines, which works on
 * the leader and its sacrifices, draws bytes from the hash provider and
 * mints new avatars from the provider's base DNA.
 *
 * The leader, the sacrifices and the routines' counters and lists are
 * local state threaded through loops; the hash provider is the one object
 * that is changed in place. A panic (`todo!()`, an index out of bounds, a
 * remainder by zero, a slice copy that cannot fit) is an `Err` of the
 * corresponding failure.
 */
module Combinator {
  import opened Bits
  import opened TypesV2
  import opened Avatars
  import opened Outcomes
  import opened AvatarUtils
  import opened AttributeBlock
  import opened Builder
  import opened HashProviders
  import opened ToolsConstants
  import opened ToolsMinter
  import ToolsForger

  /** What every combination routine returns: the leader's outcome and the other outcomes, in order. */
  type ForgeResult = Result<(LeaderForgeOutput, seq<ForgeOutput>)>

  predicate AllHaveAttributes(items: seq<ForgeItem>)
  {
    forall i | 0 <= i < |items| :: |items[i].avatar.dna| >= ATTRIBUTE_BYTES
  }

  predicate AllHaveV2Layout(items: seq<ForgeItem>)
  {
    forall i | 0 <= i < |items| :: HasV2Layout(items[i].avatar)
  }

  /** Every item consumed, in input order. */
  function ConsumedAll(items: seq<ForgeItem>): (r: seq<ForgeOutput>)
    ensures |r| == |items|
    ensures forall k | 0 <= k < |items| :: r[k] == Consumed(items[k].id)
  {
    seq(|items|, k requires 0 <= k < |items| => Consumed(items[k].id))
  }

  /** The number of bytes below the threshold. */
  function CountBelow(bytes: seq<Byte>, threshold: Byte): (n: nat)
    ensures n <= |bytes|
  {
    if |bytes| == 0 then 0
    else CountBelow(bytes[..|bytes| - 1], threshold) + (if bytes[|bytes| - 1] < threshold then 1 else 0)
  }

  /** No byte is below the threshold exactly when the count is 0. */
  lemma {:induction false} CountBelowIsZeroIffNoneBelow(bytes: seq<Byte>, threshold: Byte)
    ensures CountBelow(bytes, threshold) == 0 <==> forall k | 0 <= k < |bytes| :: bytes[k] >= threshold
  {
    if |bytes| > 0 {
      var prefix := bytes[..|bytes| - 1];
      CountBelowIsZeroIffNoneBelow(prefix, threshold);
      assert forall k | 0 <= k < |prefix| :: prefix[k] == bytes[k];
    }
  }

  // ----- stack -----

  /** The sacrifices' quantities added up, without a bound. */
  function TotalQuantity(items: seq<ForgeItem>): nat
    requires AllHaveAttributes(items)
  {
    if |items| == 0 then 0
    else TotalQuantity(items[..|items| - 1]) + ReadAttribute(items[|items| - 1].avatar, AttrQuantity)
  }

  /**
   * The quantity half of the stacking `reduce`: the quantities folded from
   * the left with `u8::saturating_add`; no sacrifices give the default 0.
   */
  function StackedQuantity(items: seq<ForgeItem>): Byte
    requires AllHaveAttributes(items)
  {
    if |items| == 0 then 0
    else SatAddU8(StackedQuantity(items[..|items| - 1]), ReadAttribute(items[|items| - 1].avatar, AttrQuantity))
  }

  /** The saturating fold is the true total held at 255. */
  lemma {:induction false} StackedQuantityIsCappedTotal(items: seq<ForgeItem>)
    requires AllHaveAttributes(items)
    ensures StackedQuantity(items) == if TotalQuantity(items) > U8_MAX then U8_MAX else TotalQuantity(items)
  {
    if |items| > 0 {
      StackedQuantityIsCappedTotal(items[..|items| - 1]);
    }
  }

  /** The sacrifices' souls added up, without a bound. */
  function TotalSouls(items: seq<ForgeItem>): nat
  {
    if |items| == 0 then 0 else TotalSouls(items[..|items| - 1]) + items[|items| - 1].avatar.souls
  }

  /** The souls half of the stacking `reduce`, with `u32::saturating_add`. */
  function StackedSouls(items: seq<ForgeItem>): U32
  {
    if |items| == 0 then 0 else SatAddU32(StackedSouls(items[..|items| - 1]), items[|items| - 1].avatar.souls)
  }

  /** The saturating fold is the true total held at `u32::MAX`. */
  lemma {:induction false} StackedSoulsIsCappedTotal(items: seq<ForgeItem>)
    ensures StackedSouls(items) == if TotalSouls(items) > U32_MAX then U32_MAX else TotalSouls(items)
  {
    if |items| > 0 {
      StackedSoulsIsCappedTotal(items[..|items| - 1]);
    }
  }

  /**
   * The essence stacking mints: a Glimmer essence built on the base DNA
   * (uncommon, custom type 1 set to 1, class types and custom type 2
   * cleared) holding one unit per successful draw, at most 255, and a
   * single soul.
   */
  predicate IsStackEssence(essence: Avatar, seasonId: SeasonId, baseDna: seq<Byte>, count: nat)
    requires |baseDna| == V2_DNA_LENGTH
  {
    essence.seasonId == seasonId && essence.version == V2 && essence.souls == 1
    && |essence.dna| == V2_DNA_LENGTH
    && BlockOf(essence) == Block(ItemTypeIntoByte(Essence), EssenceIntoByte(Glimmer), 0, LowNibble(baseDna[1]),
                                 1, RarityIntoByte(Uncommon), if count > U8_MAX then U8_MAX else count, 0)
    && forall i | ATTRIBUTE_BYTES <= i < V2_DNA_LENGTH :: essence.dna[i] == baseDna[i]
  }

  /** The first successful draw: `with_dna(base DNA).into_essence(Glimmer, 1)`. */
  method NewStackEssence(seasonId: SeasonId, provider: HashProvider) returns (essence: Avatar)
    requires provider.Valid()
    ensures IsStackEssence(essence, seasonId, provider.fullHashes(7)[..V2_DNA_LENGTH], 1)
  {
    var dna := GenerateBaseAvatarDna(provider);
    var builder := new AvatarBuilder.WithDna(seasonId, dna.value);
    builder.IntoEssence(Glimmer, 1);
    essence := builder.Build();
  }

  /** A later successful draw: `with_base_avatar(essence).add_quantity(1)`. */
  method AddEssenceUnit(essence: Avatar, ghost seasonId: SeasonId, ghost baseDna: seq<Byte>, ghost count: nat)
    returns (grown: Avatar)
    requires |baseDna| == V2_DNA_LENGTH && IsStackEssence(essence, seasonId, baseDna, count)
    ensures IsStackEssence(grown, seasonId, baseDna, count + 1)
  {
    var builder := new AvatarBuilder.WithBaseAvatar(essence);
    builder.AddQuantity(1);
    grown := builder.Build();
  }

  /** What a drawn byte does to the essence: below `STACK_PROBABILITY` it mints it or adds a unit. */
  method StackDraw(essence: Option<Avatar>, byte: Byte, seasonId: SeasonId, provider: HashProvider, ghost count: nat)
    returns (next: Option<Avatar>)
    requires provider.Valid()
    requires essence.Nothing? <==> count == 0
    requires essence.Some? ==> IsStackEssence(essence.value, seasonId, provider.fullHashes(7)[..V2_DNA_LENGTH], count)
    ensures var grown := count + (if byte < STACK_PROBABILITY then 1 else 0);
            (next.Nothing? <==> grown == 0)
            && (next.Some? ==> IsStackEssence(next.value, seasonId, provider.fullHashes(7)[..V2_DNA_LENGTH], grown))
  {
    next := essence;
    if STACK_PROBABILITY > byte {
      match essence {
        case Nothing =>
          var minted := NewStackEssence(seasonId, provider);
          next := Some(minted);
        case Some(entry) =>
          var grown := AddEssenceUnit(entry, seasonId, provider.fullHashes(7)[..V2_DNA_LENGTH], count);
          next := Some(grown);
      }
    }
  }

  /** Counting one more byte of a sequence. */
  lemma CountBelowStep(bytes: seq<Byte>, k: nat, threshold: Byte)
    requires k < |bytes|
    ensures CountBelow(bytes[..k + 1], threshold)
            == CountBelow(bytes[..k], threshold) + (if bytes[k] < threshold then 1 else 0)
  {
    assert bytes[..k + 1][..k] == bytes[..k];
  }

  /**
   * The drawing loop of `stack_avatars`: one byte per sacrifice; the first
   * byte below `STACK_PROBABILITY` mints the essence and each later one adds
   * a unit to it.
   */
  method DrawStackEssence(draws: nat, seasonId: SeasonId, provider: HashProvider) returns (essence: Option<Avatar>)
    requires provider.Valid()
    modifies provider
    ensures provider.Valid()
    ensures provider.currentIndex == (old(provider.currentIndex) + draws) % HASH_LENGTH
    ensures var hits := CountBelow(old(provider.Ahead(draws)), STACK_PROBABILITY);
            (essence.Nothing? <==> hits == 0)
            && (essence.Some? ==> IsStackEssence(essence.value, seasonId, provider.fullHashes(7)[..V2_DNA_LENGTH], hits))
  {
    ghost var start := provider.currentIndex;
    ghost var ahead := provider.Ahead(draws);
    ghost var baseDna := provider.fullHashes(7)[..V2_DNA_LENGTH];
    ghost var hits: nat := 0;
    essence := Nothing;
    for k := 0 to draws
      invariant provider.Valid() && baseDna == provider.fullHashes(7)[..V2_DNA_LENGTH]
      invariant provider.currentIndex == (start + k) % HASH_LENGTH
      invariant hits == CountBelow(ahead[..k], STACK_PROBABILITY)
      invariant essence.Nothing? <==> hits == 0
      invariant essence.Some? ==> IsStackEssence(essence.value, seasonId, baseDna, hits)
    {
      var byte := provider.GetHashByte();
      WrapAbsorbs(start + k, 1);
      assert byte == ahead[k];
      essence := StackDraw(essence, byte, seasonId, provider, hits);
      CountBelowStep(ahead, k, STACK_PROBABILITY);
      hits := hits + (if byte < STACK_PROBABILITY then 1 else 0);
    }
    assert ahead[..draws] == ahead;
  }

  /**
   * `stack_avatars`. The leader's quantity becomes the saturating sum of
   * the sacrifices' quantities (its own is overwritten, not added) and its
   * souls grow by the saturating sum of theirs, wrapping at 2^32. One byte
   * is drawn per sacrifice; each below `STACK_PROBABILITY` adds a unit to
   * the Glimmer essence minted on the first one. Every sacrifice is
   * consumed, in input order, followed by the essence if there is one.
   */
  method StackAvatars(leader: ForgeItem, sacrifices: seq<ForgeItem>, seasonId: SeasonId, provider: HashProvider)
    returns (r: ForgeResult)
    requires provider.Valid()
    requires |leader.avatar.dna| >= ATTRIBUTE_BYTES && AllHaveAttributes(sacrifices)
    modifies provider
    ensures provider.Valid()
    ensures provider.currentIndex == (old(provider.currentIndex) + |sacrifices|) % HASH_LENGTH
    ensures r.Ok? && r.value.0.LeaderForged? && r.value.0.upgraded == 0 && r.value.0.item.id == leader.id
    ensures var stacked := r.value.0.item.avatar;
            var total := TotalQuantity(sacrifices);
            stacked.seasonId == leader.avatar.seasonId && stacked.version == leader.avatar.version
            && stacked.dna == WriteAttribute(leader.avatar, AttrQuantity, StackedQuantity(sacrifices)).dna
            && ReadAttribute(stacked, AttrQuantity) == (if total > U8_MAX then U8_MAX else total)
            && stacked.souls == WrapAddU32(leader.avatar.souls, StackedSouls(sacrifices))
    ensures var hits := CountBelow(old(provider.Ahead(|sacrifices|)), STACK_PROBABILITY);
            var outputs := r.value.1;
            |outputs| == |sacrifices| + (if hits == 0 then 0 else 1)
            && (forall k | 0 <= k < |sacrifices| :: outputs[k] == Consumed(sacrifices[k].id))
            && (hits > 0 ==> outputs[|sacrifices|].Minted?
                             && IsStackEssence(outputs[|sacrifices|].avatar, seasonId,
                                               provider.fullHashes(7)[..V2_DNA_LENGTH], hits))
  {
    var newQuantity := StackedQuantity(sacrifices);
    var newSouls := StackedSouls(sacrifices);
    var avatar := WriteAttribute(leader.avatar, AttrQuantity, newQuantity);
    StackedQuantityIsCappedTotal(sacrifices);
    var essence := DrawStackEssence(|sacrifices|, seasonId, provider);
    avatar := avatar.(souls := WrapAddU32(avatar.souls, newSouls));
    var outputs := ConsumedAll(sacrifices);
    if essence.Some? {
      outputs := outputs + [Minted(essence.value)];
    }
    r := Ok((LeaderForged(ForgeItem(leader.id, avatar), 0), outputs));
  }

  // ----- match_avatars -----

  /** `match_progress_arrays` finds the sacrifice's progress array a fit for the leader's. */
  predicate Fits(leader: Avatar, sacrifice: Avatar, variations: Variations)
    requires HasV2Layout(leader) && HasV2Layout(sacrifice)
  {
    PositionOneMatches(ReadProgressArray(leader), ReadProgressArray(sacrifice), variations)
  }

  /** The sacrifice has the leader's item type and sub-type. */
  predicate SameKind(leader: Avatar, sacrifice: Avatar)
    requires HasV2Layout(leader) && HasV2Layout(sacrifice)
  {
    HasAttributeSetWithSameValuesAs(leader, sacrifice, [AttrItemType, AttrItemSubType])
  }

  /**
   * How the first loop of `match_avatars` sorts the sacrifices: the ids of
   * the fitting ones of the leader's kind, the ids of the fitting ones of
   * another kind, each in order, and the number that do not fit.
   */
  datatype Classification = Classification(fitSames: seq<AvatarId>, fitOthers: seq<AvatarId>, noFits: nat)

  function Classify(leader: Avatar, items: seq<ForgeItem>, variations: Variations): Classification
    requires HasV2Layout(leader) && AllHaveV2Layout(items)
  {
    if |items| == 0 then Classification([], [], 0)
    else
      var before := Classify(leader, items[..|items| - 1], variations);
      var last := items[|items| - 1];
      if !Fits(leader, last.avatar, variations) then before.(noFits := before.noFits + 1)
      else if SameKind(leader, last.avatar) then before.(fitSames := before.fitSames + [last.id])
      else before.(fitOthers := before.fitOthers + [last.id])
  }

  function FitSameIds(leader: Avatar, items: seq<ForgeItem>, variations: Variations): seq<AvatarId>
    requires HasV2Layout(leader) && AllHaveV2Layout(items)
  {
    Classify(leader, items, variations).fitSames
  }

  function NoFitsOf(leader: Avatar, items: seq<ForgeItem>, variations: Variations): nat
    requires HasV2Layout(leader) && AllHaveV2Layout(items)
  {
    Classify(leader, items, variations).noFits
  }

  function FitOtherIds(leader: Avatar, items: seq<ForgeItem>, variations: Variations): seq<AvatarId>
    requires HasV2Layout(leader) && AllHaveV2Layout(items)
  {
    Classify(leader, items, variations).fitOthers
  }

  /** The items whose id is one of `ids`, in order. */
  function SelectById(items: seq<ForgeItem>, ids: seq<AvatarId>): (r: seq<ForgeItem>)
    ensures |r| <= |items|
    ensures forall j | 0 <= j < |r| :: r[j] in items && r[j].id in ids
  {
    if |items| == 0 then []
    else SelectById(items[..|items| - 1], ids) + (if items[|items| - 1].id in ids then [items[|items| - 1]] else [])
  }

  predicate DistinctIds(items: seq<ForgeItem>)
  {
    forall i, j | 0 <= i < j < |items| :: items[i].id != items[j].id
  }

  /** Every id of a fitting sacrifice of another kind belongs to such a sacrifice. */
  lemma {:induction false} FitOtherIdsComeFromFitOthers(leader: Avatar, items: seq<ForgeItem>, variations: Variations)
    requires HasV2Layout(leader) && AllHaveV2Layout(items)
    ensures forall id | id in FitOtherIds(leader, items, variations) ::
              exists i | 0 <= i < |items| :: items[i].id == id
                                             && Fits(leader, items[i].avatar, variations)
                                             && !SameKind(leader, items[i].avatar)
  {
    if |items| > 0 {
      var prefix := items[..|items| - 1];
      var n := |items| - 1;
      FitOtherIdsComeFromFitOthers(leader, prefix, variations);
      forall id | id in FitOtherIds(leader, items, variations)
        ensures exists i | 0 <= i < |items| :: items[i].id == id
                                               && Fits(leader, items[i].avatar, variations)
                                               && !SameKind(leader, items[i].avatar)
      {
        if id in FitOtherIds(leader, prefix, variations) {
          var i :| 0 <= i < |prefix| && prefix[i].id == id && Fits(leader, prefix[i].avatar, variations)
                   && !SameKind(leader, prefix[i].avatar);
          assert items[i] == prefix[i];
        } else {
          assert items[n].id == id;
        }
      }
    }
  }

  /**
   * With distinct ids, the items `match_avatars` hands back are exactly
   * fitting sacrifices of another kind than the leader.
   */
  lemma SelectedAreFitOthers(leader: Avatar, items: seq<ForgeItem>, variations: Variations)
    requires HasV2Layout(leader) && AllHaveV2Layout(items) && DistinctIds(items)
    ensures forall item | item in SelectById(items, FitOtherIds(leader, items, variations)) ::
              HasV2Layout(item.avatar) && Fits(leader, item.avatar, variations) && !SameKind(leader, item.avatar)
  {
    FitOtherIdsComeFromFitOthers(leader, items, variations);
  }

  /** The souls of the items summed with `u32` wrap-around, as `sum::<SoulCount>()` does. */
  function WrappingSoulSum(items: seq<ForgeItem>): U32
  {
    if |items| == 0 then 0
    else WrapAddU32(WrappingSoulSum(items[..|items| - 1]), items[|items| - 1].avatar.souls)
  }

  /** Reducing a summand modulo 2^32 first does not change the sum modulo 2^32. */
  lemma WrapAbsorbsU32(a: nat, b: nat)
    ensures (a % 0x1_0000_0000 + b) % 0x1_0000_0000 == (a + b) % 0x1_0000_0000
  {
    var q := a / 0x1_0000_0000;
    assert a == 0x1_0000_0000 * q + a % 0x1_0000_0000;
  }

  /** Summing with wrap-around is the true total taken modulo 2^32. */
  lemma {:induction false} WrappingSoulSumIsTotalModulo(items: seq<ForgeItem>)
    ensures WrappingSoulSum(items) == TotalSouls(items) % 0x1_0000_0000
  {
    if |items| > 0 {
      var prefix := items[..|items| - 1];
      WrappingSoulSumIsTotalModulo(prefix);
      WrapAbsorbsU32(TotalSouls(prefix), items[|items| - 1].avatar.souls);
    }
  }

  /** `retain(|item| *item != pos)`. */
  function Without(score: seq<Byte>, pos: Byte): (r: seq<Byte>)
    ensures forall j | 0 <= j < |r| :: r[j] != pos && r[j] in score
    ensures |r| <= |score|
  {
    if |score| == 0 then []
    else Without(score[..|score| - 1], pos) + (if score[|score| - 1] != pos then [score[|score| - 1]] else [])
  }

  /** `n` copies of `block`, one after another. */
  function Repeat(block: seq<Byte>, n: nat): (r: seq<Byte>)
    ensures |r| == |block| * n
  {
    if n == 0 then [] else Repeat(block, n - 1) + block
  }

  /** One more sacrifice extends the classification by that sacrifice alone. */
  lemma ClassifyStep(leader: Avatar, items: seq<ForgeItem>, k: nat, variations: Variations)
    requires HasV2Layout(leader) && AllHaveV2Layout(items) && k < |items|
    ensures var before := Classify(leader, items[..k], variations);
            Classify(leader, items[..k + 1], variations)
            == if !Fits(leader, items[k].avatar, variations) then before.(noFits := before.noFits + 1)
               else if SameKind(leader, items[k].avatar) then before.(fitSames := before.fitSames + [items[k].id])
               else before.(fitOthers := before.fitOthers + [items[k].id])
  {
    assert items[..k + 1][..k] == items[..k];
  }

  /** Counting one more on a wrapping `u8` counter. */
  lemma WrapStep(n: nat)
    ensures (n % 256 + 1) % 256 == (n + 1) % 256
  {
  }

  /** The two tests the first loop of `match_avatars` makes on one sacrifice. */
  method ClassifyOne(leader: Avatar, sacrifice: Avatar, variations: Variations)
    returns (matched: Option<seq<Byte>>, same: bool)
    requires HasV2Layout(leader) && HasV2Layout(sacrifice)
    ensures matched.Some? <==> Fits(leader, sacrifice, variations)
    ensures matched.Some? ==> matched.value == ReadProgressArray(leader)
    ensures same <==> SameKind(leader, sacrifice)
  {
    matched := MatchProgressArrays(ReadProgressArray(leader), ReadProgressArray(sacrifice), variations);
    same := HasAttributeSetWithSameValuesAs(leader, sacrifice, [AttrItemType, AttrItemSubType]);
  }

  /**
   * The first loop of `match_avatars`: a fitting sacrifice of the leader's
   * kind adds the leader's whole progress array to the matching score,
   * counts as a match and has its id kept; a fitting one of another kind has
   * its id kept in the other list; one that does not fit counts as a miss.
   * The two counters are `u8` and wrap.
   */
  method ClassifySacrifices(leader: Avatar, sacrifices: seq<ForgeItem>, variations: Variations)
    returns (score: seq<Byte>, matches: Byte, noFit: Byte, fitOthers: seq<AvatarId>, fitSames: seq<AvatarId>)
    requires HasV2Layout(leader) && AllHaveV2Layout(sacrifices)
    ensures Classification(fitSames, fitOthers, NoFitsOf(leader, sacrifices, variations))
            == Classify(leader, sacrifices, variations)
    ensures matches == |fitSames| % 256 && noFit == NoFitsOf(leader, sacrifices, variations) % 256
    ensures score == Repeat(ReadProgressArray(leader), |fitSames|)
  {
    var progress := ReadProgressArray(leader);
    score, matches, noFit, fitOthers, fitSames := [], 0, 0, [], [];
    ghost var noFits: nat := 0;
    for k := 0 to |sacrifices|
      invariant Classification(fitSames, fitOthers, noFits) == Classify(leader, sacrifices[..k], variations)
      invariant matches == |fitSames| % 256 && noFit == noFits % 256
      invariant score == Repeat(progress, |fitSames|)
    {
      var sacrifice := sacrifices[k];
      ClassifyStep(leader, sacrifices, k, variations);
      var matched, same := ClassifyOne(leader, sacrifice.avatar, variations);
      if matched.Some? {
        if same {
          score := score + matched.value;
          WrapStep(|fitSames|);
          matches := (matches as int + 1) % 256;
          fitSames := fitSames + [sacrifice.id];
        } else {
          fitOthers := fitOthers + [sacrifice.id];
        }
      } else {
        WrapStep(noFits);
        noFit := (noFit as int + 1) % 256;
        noFits := noFits + 1;
      }
    }
    assert sacrifices[..|sacrifices|] == sacrifices;
  }

  /**
   * The rolling loop of `match_avatars`: each of `rolls` draws below the
   * threshold picks a position from the matching score by the drawn byte,
   * adds 0x10 to that byte of the progress array (wrapping), and removes
   * every copy of the position from the score; the loop stops early once
   * the score is empty. A position past the array is an index panic. So
   * every byte is raised at most once, and only at positions the score
   * named.
   */
  method RollProgress(progress: seq<Byte>, score: seq<Byte>, rolls: Byte, threshold: Byte, provider: HashProvider)
    returns (r: Result<seq<Byte>>)
    requires provider.Valid() && |progress| == PROGRESS_ARRAY_LENGTH && |score| > 0
    modifies provider
    ensures provider.Valid()
    ensures r.Err? ==> r.error == IndexOutOfBounds
    ensures r.Ok? ==> |r.value| == |progress|
    ensures r.Ok? ==> forall i | 0 <= i < |progress| ::
                        r.value[i] == progress[i] || (r.value[i] == (progress[i] as int + 0x10) % 256 && i in score)
  {
    var current := progress;
    var remaining := score;
    ghost var raised: set<int> := {};
    for roll := 0 to rolls
      invariant provider.Valid()
      invariant |current| == |progress| && |remaining| > 0
      invariant forall i | 0 <= i < |progress| :: current[i] == if i in raised then (progress[i] as int + 0x10) % 256 else progress[i]
      invariant forall i | i in raised :: i in score
      invariant forall j | 0 <= j < |remaining| :: remaining[j] !in raised && remaining[j] in score
    {
      var randomHash := provider.GetHashByte();
      if randomHash < threshold {
        var pos := remaining[randomHash % |remaining|];
        if pos >= |current| {
          return Err(IndexOutOfBounds);
        }
        current := current[pos := (current[pos] as int + 0x10) % 256];
        raised := raised + {pos};
        remaining := Without(remaining, pos);
        if |remaining| == 0 {
          break;
        }
      }
    }
    r := Ok(current);
  }

  /**
   * `match_avatars`. It returns the leader with the souls of every sacrifice
   * added (wrapping at 2^32), the sacrifices that fit but are of another
   * kind (picked by id), and the ids of those that fit and are of the
   * leader's kind. When there is at least one of the latter, the rolls are
   * made and the raised progress array is written back, and that write
   * copies into an inverted range: the call panics. So it returns only when
   * no sacrifice both fits and shares the leader's kind, and then without
   * drawing from the provider.
   */
  method MatchAvatars(leader: ForgeItem, sacrifices: seq<ForgeItem>, variations: Variations,
                      probabilityMatch: Byte -> Byte, provider: HashProvider)
    returns (r: Result<(ForgeItem, seq<ForgeItem>, seq<AvatarId>)>)
    requires provider.Valid() && HasV2Layout(leader.avatar) && AllHaveV2Layout(sacrifices)
    modifies provider
    ensures provider.Valid()
    ensures r.Ok? <==> FitSameIds(leader.avatar, sacrifices, variations) == []
    ensures r.Err? ==> IsPanic(r.error)
    ensures r.Ok? ==> provider.currentIndex == old(provider.currentIndex)
    ensures r.Ok? ==> r.value.0 == ForgeItem(leader.id, leader.avatar.(souls :=
                                    (leader.avatar.souls + TotalSouls(sacrifices)) % 0x1_0000_0000))
                      && r.value.1 == SelectById(sacrifices, FitOtherIds(leader.avatar, sacrifices, variations))
                      && r.value.2 == []
  {
    var avatar := leader.avatar;
    var score, matches, noFit, fitOthers, fitSames := ClassifySacrifices(avatar, sacrifices, variations);
    if |score| > 0 {
      var rolls := (matches as int + noFit as int) % 256;
      var rolled := RollProgress(ReadProgressArray(avatar), score, rolls, probabilityMatch(matches), provider);
      if rolled.Err? {
        return Err(rolled.error);
      }
      var written := WriteProgressArray(avatar, rolled.value);
      return Err(written.error);
    }
    WrappingSoulSumIsTotalModulo(sacrifices);
    WrapAbsorbsU32(TotalSouls(sacrifices), avatar.souls);
    avatar := avatar.(souls := WrapAddU32(avatar.souls, WrappingSoulSum(sacrifices)));
    r := Ok((ForgeItem(leader.id, avatar), SelectById(sacrifices, fitOthers), fitSames));
  }

  /** Every id consumed, in order. */
  function ConsumedIds(ids: seq<AvatarId>): (r: seq<ForgeOutput>)
    ensures |r| == |ids|
    ensures forall k | 0 <= k < |ids| :: r[k] == Consumed(ids[k])
  {
    seq(|ids|, k requires 0 <= k < |ids| => Consumed(ids[k]))
  }

  // ----- the tier a match reaches -----

  /** The least high nibble among the first `n` bytes. */
  function LowestHighFrom(progress: seq<Byte>, n: nat): (r: Byte)
    requires 0 < n <= |progress|
    ensures forall i | 0 <= i < n :: r <= progress[i] / 16
    ensures exists i | 0 <= i < n :: r == progress[i] / 16
  {
    if n == 1 then progress[0] / 16
    else
      var before := LowestHighFrom(progress, n - 1);
      if progress[n - 1] / 16 < before then progress[n - 1] / 16 else before
  }

  /** The least high nibble of the progress array: the tier every position has reached. */
  function LowestHigh(progress: seq<Byte>): Byte
    requires |progress| == PROGRESS_ARRAY_LENGTH
  {
    LowestHighFrom(progress, |progress|)
  }

  /** What `read_lowest_progress_byte` finds on the high strands is that least nibble. */
  lemma LowestIsUnique(r: Byte, progress: seq<Byte>)
    requires |progress| == PROGRESS_ARRAY_LENGTH
    requires forall i | 0 <= i < PROGRESS_ARRAY_LENGTH :: r <= ReadDnaAt(progress, i, High)
    requires exists i | 0 <= i < PROGRESS_ARRAY_LENGTH :: r == ReadDnaAt(progress, i, High)
    ensures r == LowestHigh(progress)
  {
    var i :| 0 <= i < PROGRESS_ARRAY_LENGTH && r == ReadDnaAt(progress, i, High);
    var j :| 0 <= j < PROGRESS_ARRAY_LENGTH && LowestHigh(progress) == progress[j] / 16;
    assert r <= ReadDnaAt(progress, j, High);
  }

  /** The rarity `assemble_avatars` and `breed_avatars` give the leader: the tier of its lowest progress nibble. */
  function ReachedRarity(avatar: Avatar): RarityType
    requires HasV2Layout(avatar)
  {
    RarityFromByte(LowestHigh(ReadProgressArray(avatar)))
  }

  /** `read_lowest_progress_byte(progress array, High)` turned into a rarity. */
  method ReadReachedRarity(avatar: Avatar) returns (rarity: RarityType)
    requires HasV2Layout(avatar)
    ensures rarity == ReachedRarity(avatar)
  {
    var progress := ReadProgressArray(avatar);
    var lowest := ReadLowestProgressByte(progress, High);
    LowestIsUnique(lowest, progress);
    rarity := RarityFromByte(lowest);
  }

  // ----- assemble -----

  /** An equipable armour base: item type `Equipable`, sub-type `ArmorBase`. */
  predicate IsArmorBase(avatar: Avatar)
    requires |avatar.dna| >= ATTRIBUTE_BYTES
  {
    HasAttributeWithValue(avatar, AttrItemType, ItemTypeIntoByte(Equipable))
    && HasAttributeWithValue(avatar, AttrItemSubType, EquipableIntoByte(ArmorBase))
  }

  /** The first armour base among the items, as `filter(..).next()` finds it. */
  function FirstArmorBase(items: seq<ForgeItem>): (r: Option<ForgeItem>)
    requires AllHaveV2Layout(items)
    ensures r.Nothing? <==> forall k | 0 <= k < |items| :: !IsArmorBase(items[k].avatar)
    ensures r.Some? ==> exists k | 0 <= k < |items| ::
                          items[k] == r.value && IsArmorBase(items[k].avatar)
                          && forall j | 0 <= j < k :: !IsArmorBase(items[j].avatar)
  {
    if |items| == 0 then Nothing
    else if IsArmorBase(items[0].avatar) then Some(items[0])
    else
      var rest := FirstArmorBase(items[1..]);
      assert forall k | 1 <= k < |items| :: items[k] == items[1..][k - 1];
      rest
  }

  /**
   * With distinct ids, an armour base leader never finds an armour base
   * among the sacrifices `match_avatars` hands back: those are of another
   * kind than the leader, so the spec-byte copy of `assemble_avatars` never
   * happens.
   */
  lemma NoArmorBaseAmongOthers(leader: Avatar, items: seq<ForgeItem>, variations: Variations)
    requires HasV2Layout(leader) && AllHaveV2Layout(items) && DistinctIds(items) && IsArmorBase(leader)
    ensures FirstArmorBase(SelectById(items, FitOtherIds(leader, items, variations))).Nothing?
  {
    var selected := SelectById(items, FitOtherIds(leader, items, variations));
    SelectedAreFitOthers(leader, items, variations);
    forall k | 0 <= k < |selected|
      ensures !IsArmorBase(selected[k].avatar)
    {
      assert selected[k] in selected;
      if IsArmorBase(selected[k].avatar) {
        assert HasAttributeWithSameValueAs(leader, selected[k].avatar, [AttrItemType, AttrItemSubType][0]);
        assert HasAttributeWithSameValueAs(leader, selected[k].avatar, [AttrItemType, AttrItemSubType][1]);
        assert false;
      }
    }
  }

  /**
   * The writes `assemble_avatars` makes on the matched leader: an armour
   * base leader already of the rarity reached copies spec byte 1 of the
   * first armour base among the selected sacrifices, if there is one; then
   * the rarity attribute becomes the rarity reached. Nothing else changes.
   */
  function AssembleWrites(avatar: Avatar, selected: seq<ForgeItem>, rarity: RarityType): (r: Avatar)
    requires HasV2Layout(avatar) && AllHaveV2Layout(selected)
    ensures var first := FirstArmorBase(selected);
            var copies := IsArmorBase(avatar) && ReadAttribute(avatar, AttrRarityType) == RarityIntoByte(rarity)
                          && first.Some?;
            r.seasonId == avatar.seasonId && r.version == avatar.version && r.souls == avatar.souls
            && |r.dna| == |avatar.dna|
            && ReadAttribute(r, AttrRarityType) == RarityIntoByte(rarity)
            && ReadAttribute(r, AttrCustomType1) == ReadAttribute(avatar, AttrCustomType1)
            && ReadSpecByte(r, 1) == (if copies then ReadSpecByte(first.value.avatar, 1) else ReadSpecByte(avatar, 1))
            && forall i | 0 <= i < |r.dna| && i != 2 && i != 5 :: r.dna[i] == avatar.dna[i]
  {
    var first := FirstArmorBase(selected);
    var copied :=
      if IsArmorBase(avatar) && HasAttributeWithValue(avatar, AttrRarityType, RarityIntoByte(rarity)) && first.Some?
      then WriteSpecByte(avatar, 1, ReadSpecByte(first.value.avatar, 1))
      else avatar;
    WriteAttribute(copied, AttrRarityType, RarityIntoByte(rarity))
  }

  /**
   * `assemble_avatars`: `match_avatars`, then the assembling writes with
   * the rarity the progress array has reached; the selected sacrifices are
   * consumed. The call fails exactly when `match_avatars` does.
   */
  method AssembleAvatars(leader: ForgeItem, sacrifices: seq<ForgeItem>, variations: Variations,
                         probabilityMatch: Byte -> Byte, provider: HashProvider)
    returns (r: ForgeResult)
    requires provider.Valid() && HasV2Layout(leader.avatar) && AllHaveV2Layout(sacrifices)
    modifies provider
    ensures provider.Valid()
    ensures r.Ok? <==> FitSameIds(leader.avatar, sacrifices, variations) == []
    ensures r.Err? ==> IsPanic(r.error)
    ensures r.Ok? ==> provider.currentIndex == old(provider.currentIndex)
    ensures r.Ok? ==>
              var selected := SelectById(sacrifices, FitOtherIds(leader.avatar, sacrifices, variations));
              var matched := leader.avatar.(souls := (leader.avatar.souls + TotalSouls(sacrifices)) % 0x1_0000_0000);
              r.value.0 == LeaderForged(ForgeItem(leader.id, AssembleWrites(matched, selected, ReachedRarity(leader.avatar))), 0)
              && r.value.1 == ConsumedAll(selected)
  {
    var matched := MatchAvatars(leader, sacrifices, variations, probabilityMatch, provider);
    if matched.Err? {
      return Err(matched.error);
    }
    var (item, selected, fitSames) := matched.value;
    var rarity := ReadReachedRarity(item.avatar);
    var avatar := AssembleWrites(item.avatar, selected, rarity);
    assert ConsumedIds(fitSames) == [];
    r := Ok((LeaderForged(ForgeItem(item.id, avatar), 0), ConsumedIds(fitSames) + ConsumedAll(selected)));
  }

  // ----- breed -----

  /** A pet egg: item type `Pet`, sub-type `Egg`. */
  predicate IsEgg(avatar: Avatar)
    requires |avatar.dna| >= ATTRIBUTE_BYTES
  {
    HasAttributeWithValue(avatar, AttrItemType, ItemTypeIntoByte(ItemType.Pet))
    && HasAttributeWithValue(avatar, AttrItemSubType, PetItemIntoByte(Egg))
  }

  /** An egg hatches when its progress has reached the legendary tier. */
  predicate Hatches(avatar: Avatar)
    requires HasV2Layout(avatar)
  {
    ReachedRarity(avatar) == Legendary && IsEgg(avatar)
  }

  /** The pet types an egg can hatch into: the bits of its custom type 2. */
  function HatchablePets(avatar: Avatar): seq<PetType>
    requires |avatar.dna| >= ATTRIBUTE_BYTES
  {
    BitsToEnums(ReadAttribute(avatar, AttrCustomType2), PetTypeFromByte)
  }

  /**
   * The writes `breed_avatars` makes on the matched leader, given the byte
   * it would draw: an egg whose progress reached the legendary tier hatches
   * into the pet type the byte picks, modulo the list's length, from those
   * its custom type 2 lists (an empty list is a remainder by zero); then the
   * rarity attribute becomes the rarity reached.
   */
  function BreedWrites(avatar: Avatar, byte: Byte): (r: Result<Avatar>)
    requires HasV2Layout(avatar)
    ensures r.Err? <==> Hatches(avatar) && |HatchablePets(avatar)| == 0
    ensures r.Err? ==> r.error == DivisionByZero
    ensures r.Ok? ==>
              var bred := r.value;
              bred.seasonId == avatar.seasonId && bred.version == avatar.version && bred.souls == avatar.souls
              && |bred.dna| == |avatar.dna|
              && ReadAttribute(bred, AttrRarityType) == RarityIntoByte(ReachedRarity(avatar))
              && ReadAttribute(bred, AttrItemType) == ReadAttribute(avatar, AttrItemType)
              && ReadAttribute(bred, AttrCustomType1) == ReadAttribute(avatar, AttrCustomType1)
              && (forall i | 3 <= i < |bred.dna| :: bred.dna[i] == avatar.dna[i])
              && (!Hatches(avatar) ==> bred.dna[0] == avatar.dna[0] && bred.dna[1] == avatar.dna[1])
    ensures r.Ok? && Hatches(avatar) ==>
              ReadAttribute(r.value, AttrItemSubType) == PetItemIntoByte(PetItemType.Pet)
              && ReadAttribute(r.value, AttrClassType2)
                 == PetTypeIntoByte(HatchablePets(avatar)[byte % |HatchablePets(avatar)|])
  {
    var rarity := ReachedRarity(avatar);
    if rarity == Legendary && IsEgg(avatar) then
      var pets := HatchablePets(avatar);
      if |pets| == 0 then Err(DivisionByZero)
      else Ok(HatchAndRate(avatar, pets[byte % |pets|], RarityIntoByte(rarity)))
    else Ok(Rate(avatar, RarityIntoByte(rarity)))
  }

  /** The rarity write alone: only the rarity nibble changes. */
  function Rate(avatar: Avatar, rarityCode: Byte): (r: Avatar)
    requires |avatar.dna| >= ATTRIBUTE_BYTES && rarityCode < 16
    ensures r.seasonId == avatar.seasonId && r.version == avatar.version && r.souls == avatar.souls
    ensures |r.dna| == |avatar.dna|
    ensures ReadAttribute(r, AttrRarityType) == rarityCode
    ensures ReadAttribute(r, AttrItemType) == ReadAttribute(avatar, AttrItemType)
    ensures ReadAttribute(r, AttrCustomType1) == ReadAttribute(avatar, AttrCustomType1)
    ensures forall i | 0 <= i < |r.dna| && i != 2 :: r.dna[i] == avatar.dna[i]
  {
    WriteAttribute(avatar, AttrRarityType, rarityCode)
  }

  /** A hatching followed by the rarity write. */
  function HatchAndRate(avatar: Avatar, pet: PetType, rarityCode: Byte): (r: Avatar)
    requires |avatar.dna| >= ATTRIBUTE_BYTES && rarityCode < 16
    ensures r.seasonId == avatar.seasonId && r.version == avatar.version && r.souls == avatar.souls
    ensures |r.dna| == |avatar.dna|
    ensures ReadAttribute(r, AttrRarityType) == rarityCode
    ensures ReadAttribute(r, AttrItemType) == ReadAttribute(avatar, AttrItemType)
    ensures ReadAttribute(r, AttrCustomType1) == ReadAttribute(avatar, AttrCustomType1)
    ensures ReadAttribute(r, AttrItemSubType) == PetItemIntoByte(PetItemType.Pet)
    ensures ReadAttribute(r, AttrClassType2) == PetTypeIntoByte(pet)
    ensures forall i | 3 <= i < |r.dna| :: r.dna[i] == avatar.dna[i]
  {
    var hatched := Hatch(avatar, pet);
    Rate(hatched, rarityCode)
  }

  /** Without a hatching the drawn byte plays no part. */
  lemma BreedWritesIgnoreTheByte(avatar: Avatar, byte1: Byte, byte2: Byte)
    requires HasV2Layout(avatar) && !Hatches(avatar)
    ensures BreedWrites(avatar, byte1) == BreedWrites(avatar, byte2)
  {
  }

  /** The part of `breed_avatars` after the match: a hatching egg draws its byte. */
  method BreedMatched(avatar: Avatar, provider: HashProvider) returns (r: Result<Avatar>)
    requires provider.Valid() && HasV2Layout(avatar)
    modifies provider
    ensures provider.Valid()
    ensures r == BreedWrites(avatar, provider.hash[old(provider.currentIndex)])
    ensures Hatches(avatar) ==> provider.currentIndex == (old(provider.currentIndex) + 1) % HASH_LENGTH
    ensures !Hatches(avatar) ==> provider.currentIndex == old(provider.currentIndex)
  {
    ghost var next := provider.hash[provider.currentIndex];
    var rarity := ReadReachedRarity(avatar);
    var byte := 0;
    assert Hatches(avatar) <==> rarity == Legendary && IsEgg(avatar);
    if rarity == Legendary && IsEgg(avatar) {
      byte := provider.GetHashByte();
    } else {
      BreedWritesIgnoreTheByte(avatar, byte, next);
    }
    r := BreedWrites(avatar, byte);
  }

  /**
   * `breed_avatars`: `match_avatars`, then the breeding writes; a hatching
   * egg draws one byte. The selected sacrifices are consumed.
   */
  method BreedAvatars(leader: ForgeItem, sacrifices: seq<ForgeItem>, variations: Variations,
                      probabilityMatch: Byte -> Byte, provider: HashProvider)
    returns (r: ForgeResult)
    requires provider.Valid() && HasV2Layout(leader.avatar) && AllHaveV2Layout(sacrifices)
    modifies provider
    ensures provider.Valid()
    ensures r.Err? ==> IsPanic(r.error)
    ensures FitSameIds(leader.avatar, sacrifices, variations) != [] ==> r.Err?
    ensures FitSameIds(leader.avatar, sacrifices, variations) == [] ==>
              var matched := leader.avatar.(souls := (leader.avatar.souls + TotalSouls(sacrifices)) % 0x1_0000_0000);
              var bred := BreedWrites(matched, provider.hash[old(provider.currentIndex)]);
              (r.Ok? <==> bred.Ok?)
              && (r.Ok? ==> r.value.0 == LeaderForged(ForgeItem(leader.id, bred.value), 0))
    ensures r.Ok? ==> r.value.1 == ConsumedAll(SelectById(sacrifices, FitOtherIds(leader.avatar, sacrifices, variations)))
    ensures r.Ok? && Hatches(leader.avatar) ==> provider.currentIndex == (old(provider.currentIndex) + 1) % HASH_LENGTH
    ensures r.Ok? && !Hatches(leader.avatar) ==> provider.currentIndex == old(provider.currentIndex)
  {
    var matched := MatchAvatars(leader, sacrifices, variations, probabilityMatch, provider);
    if matched.Err? {
      return Err(matched.error);
    }
    var (item, selected, fitSames) := matched.value;
    assert item.avatar.dna == leader.avatar.dna;
    assert Hatches(item.avatar) == Hatches(leader.avatar);
    var bred := BreedMatched(item.avatar, provider);
    if bred.Err? {
      return Err(bred.error);
    }
    assert ConsumedIds(fitSames) == [];
    r := Ok((LeaderForged(ForgeItem(item.id, bred.value), 0), ConsumedIds(fitSames) + ConsumedAll(selected)));
  }

  /** The two writes of a hatching: the pet type into class type 2, `Pet` into the sub-type. */
  function Hatch(avatar: Avatar, pet: PetType): (r: Avatar)
    requires |avatar.dna| >= ATTRIBUTE_BYTES
    ensures r.seasonId == avatar.seasonId && r.version == avatar.version && r.souls == avatar.souls
    ensures |r.dna| == |avatar.dna|
    ensures ReadAttribute(r, AttrClassType2) == PetTypeIntoByte(pet)
    ensures ReadAttribute(r, AttrItemSubType) == PetItemIntoByte(PetItemType.Pet)
    ensures ReadAttribute(r, AttrItemType) == ReadAttribute(avatar, AttrItemType)
    ensures forall i | 2 <= i < |avatar.dna| :: r.dna[i] == avatar.dna[i]
  {
    var withPet := WriteAttribute(avatar, AttrClassType2, PetTypeIntoByte(pet));
    WriteAttribute(withPet, AttrItemSubType, PetItemIntoByte(PetItemType.Pet))
  }

  // ----- using sacrifices up (tinker and build) -----

  /**
   * What becomes of a sacrifice after `use_avatar(.., 1)`: with at most one
   * unit it is consumed, otherwise it is handed back with one unit fewer.
   */
  function UseOutput(item: ForgeItem): (r: ForgeOutput)
    requires |item.avatar.dna| >= ATTRIBUTE_BYTES
    ensures r.Consumed? <==> ReadAttribute(item.avatar, AttrQuantity) <= 1
    ensures r.Consumed? ==> r.id == item.id
    ensures r.Forged? ==> r.item.id == item.id && r.upgraded == 0 && |r.item.avatar.dna| == |item.avatar.dna|
                          && ReadAttribute(r.item.avatar, AttrQuantity) == ReadAttribute(item.avatar, AttrQuantity) - 1
    ensures !r.Minted?
  {
    var used := UseAvatar(item.avatar, 1).avatar;
    if ReadAttribute(used, AttrQuantity) == 0 then Consumed(item.id) else Forged(ForgeItem(item.id, used), 0)
  }

  function UseOutputs(items: seq<ForgeItem>): (r: seq<ForgeOutput>)
    requires AllHaveAttributes(items)
    ensures |r| == |items| && forall k | 0 <= k < |items| :: r[k] == UseOutput(items[k])
  {
    seq(|items|, k requires 0 <= k < |items| => UseOutput(items[k]))
  }

  /** The soul points one unit of each item gives, summed with `u32` wrap-around. */
  function UsedSouls(items: seq<ForgeItem>): U32
    requires AllHaveAttributes(items)
  {
    if |items| == 0 then 0
    else WrapAddU32(UsedSouls(items[..|items| - 1]), UseAvatar(items[|items| - 1].avatar, 1).soulPoints)
  }

  predicate AllCanUse(items: seq<ForgeItem>, quantity: Byte)
    requires AllHaveAttributes(items)
  {
    forall k | 0 <= k < |items| :: CanUseAvatar(items[k].avatar, quantity)
  }

  /** Using one more sacrifice extends the three summaries by that sacrifice alone. */
  lemma UseStep(items: seq<ForgeItem>, k: nat)
    requires AllHaveAttributes(items) && k < |items|
    ensures UseOutputs(items[..k + 1]) == UseOutputs(items[..k]) + [UseOutput(items[k])]
    ensures UsedSouls(items[..k + 1]) == WrapAddU32(UsedSouls(items[..k]), UseAvatar(items[k].avatar, 1).soulPoints)
    ensures AllCanUse(items[..k + 1], 1) <==> AllCanUse(items[..k], 1) && CanUseAvatar(items[k].avatar, 1)
  {
    assert items[..k + 1][..k] == items[..k];
  }

  /**
   * The loop shared by `tinker_avatars` and `build_avatars`: one unit of
   * each sacrifice is used, the soul points are summed and each sacrifice
   * becomes an output. It succeeds when every sacrifice had a unit.
   */
  method UseSacrifices(sacrifices: seq<ForgeItem>) returns (outputs: seq<ForgeOutput>, soulPoints: U32, success: bool)
    requires AllHaveAttributes(sacrifices)
    ensures outputs == UseOutputs(sacrifices)
    ensures soulPoints == UsedSouls(sacrifices)
    ensures success <==> AllCanUse(sacrifices, 1)
  {
    outputs, soulPoints, success := [], 0, true;
    for k := 0 to |sacrifices|
      invariant outputs == UseOutputs(sacrifices[..k])
      invariant soulPoints == UsedSouls(sacrifices[..k])
      invariant success <==> AllCanUse(sacrifices[..k], 1)
    {
      UseStep(sacrifices, k);
      var use := UseAvatar(sacrifices[k].avatar, 1);
      success := success && use.used;
      soulPoints := WrapAddU32(soulPoints, use.soulPoints);
      outputs := outputs + [UseOutput(sacrifices[k])];
    }
    assert sacrifices[..|sacrifices|] == sacrifices;
  }

  // ----- tinker -----

  /** The sacrifices' sub-types read as materials, in order. */
  function MaterialPattern(items: seq<ForgeItem>): (r: seq<MaterialItemType>)
    requires AllHaveAttributes(items)
    ensures |r| == |items|
    ensures forall k | 0 <= k < |items| :: r[k] == MaterialFromByte(ReadAttribute(items[k].avatar, AttrItemSubType))
  {
    seq(|items|, k requires 0 <= k < |items| => MaterialFromByte(ReadAttribute(items[k].avatar, AttrItemSubType)))
  }

  /**
   * Pattern `k` (0 to 3) of a leader: the materials spec byte `2k + 1`
   * lists as bits, put in the order spec byte `2k + 2` codes.
   */
  function LeaderPattern(leader: Avatar, k: nat): Result<seq<MaterialItemType>>
    requires |leader.dna| >= SPEC_BYTES_END && k < 4
  {
    var positions := PickPositions(ReadSpecByte(leader, 2 * k + 2));
    OrderedPicks(positions, SortByCode(BitsToEnums(ReadSpecByte(leader, 2 * k + 1), MaterialFromByte), MaterialIntoByte),
                 |positions|)
  }

  /**
   * A leader pattern fails to read exactly when its spec byte lists no
   * material; otherwise it is the lowest listed material three or four
   * times. So only sacrifices of one material, three or four of them, can
   * match it.
   */
  lemma LeaderPatternShape(leader: Avatar, k: nat)
    requires |leader.dna| >= SPEC_BYTES_END && k < 4
    ensures var listed := BitsToEnums(ReadSpecByte(leader, 2 * k + 1), MaterialFromByte);
            var pattern := LeaderPattern(leader, k);
            (pattern.Err? <==> |listed| == 0)
            && (pattern.Ok? ==> (|pattern.value| == 3 || |pattern.value| == 4)
                                && forall j | 0 <= j < |pattern.value| ::
                                     pattern.value[j] == SortByCode(listed, MaterialIntoByte)[0])
  {
    var listed := BitsToEnums(ReadSpecByte(leader, 2 * k + 1), MaterialFromByte);
    var bitOrder := ReadSpecByte(leader, 2 * k + 2);
    var positions := PickPositions(bitOrder);
    ghost var n := |positions|;
    assert n == 4;
    BitsOrderToEnumRepeatsMinimum(bitOrder, listed, MaterialIntoByte);
  }

  /** The only way picking in order fails is an index past the list. */
  lemma {:induction false} OrderedPicksFailByIndex<T>(positions: seq<Byte>, sorted: seq<T>, steps: nat)
    requires steps <= |positions|
    ensures OrderedPicks(positions, sorted, steps).Err? ==> OrderedPicks(positions, sorted, steps).error == IndexOutOfBounds
  {
    if steps > 0 {
      OrderedPicksFailByIndex(positions, sorted, steps - 1);
    }
  }

  /** The `bits_to_enums` and `bits_order_to_enum` calls that read pattern `k`. */
  method ReadLeaderPattern(leader: Avatar, k: nat) returns (r: Result<seq<MaterialItemType>>)
    requires |leader.dna| >= SPEC_BYTES_END && k < 4
    ensures r == LeaderPattern(leader, k)
    ensures r.Err? ==> r.error == IndexOutOfBounds
  {
    var specBytes := ReadFullSpecBytes(leader);
    var listed := BitsToEnums(specBytes[2 * k], MaterialFromByte);
    r := BitsOrderToEnum(specBytes[2 * k + 1], listed, MaterialIntoByte);
    OrderedPicksFailByIndex(PickPositions(specBytes[2 * k + 1]), SortByCode(listed, MaterialIntoByte), 4);
  }

  /** All four leader patterns read. */
  predicate PatternsReadable(leader: Avatar)
    requires |leader.dna| >= SPEC_BYTES_END
  {
    LeaderPattern(leader, 0).Ok? && LeaderPattern(leader, 1).Ok? && LeaderPattern(leader, 2).Ok?
    && LeaderPattern(leader, 3).Ok?
  }

  /** The four leader patterns, once read. */
  datatype Patterns = Patterns(order1: seq<MaterialItemType>, order2: seq<MaterialItemType>,
                               order3: seq<MaterialItemType>, order4: seq<MaterialItemType>)

  /** The four pattern reads of `tinker_avatars`, in order; the first that panics ends the call. */
  method ReadLeaderPatterns(leader: Avatar) returns (r: Result<Patterns>)
    requires |leader.dna| >= SPEC_BYTES_END
    ensures r.Ok? <==> PatternsReadable(leader)
    ensures r.Err? ==> r.error == IndexOutOfBounds
    ensures r.Ok? ==> LeaderPattern(leader, 0) == Ok(r.value.order1) && LeaderPattern(leader, 1) == Ok(r.value.order2)
    ensures r.Ok? ==> LeaderPattern(leader, 2) == Ok(r.value.order3) && LeaderPattern(leader, 3) == Ok(r.value.order4)
  {
    var order1 := ReadLeaderPattern(leader, 0);
    if order1.Err? {
      return Err(order1.error);
    }
    var order2 := ReadLeaderPattern(leader, 1);
    if order2.Err? {
      return Err(order2.error);
    }
    var order3 := ReadLeaderPattern(leader, 2);
    if order3.Err? {
      return Err(order3.error);
    }
    var order4 := ReadLeaderPattern(leader, 3);
    if order4.Err? {
      return Err(order4.error);
    }
    r := Ok(Patterns(order1.value, order2.value, order3.value, order4.value));
  }

  /** The armour piece the first leader pattern equal to the sacrifices' pattern stands for. */
  function PieceFor(leader: Avatar, pattern: seq<MaterialItemType>): Option<EquipableItemType>
    requires |leader.dna| >= SPEC_BYTES_END && PatternsReadable(leader)
  {
    if LeaderPattern(leader, 0).value == pattern then Some(ArmorBase)
    else if LeaderPattern(leader, 1).value == pattern then Some(ArmorComponent1)
    else if LeaderPattern(leader, 2).value == pattern then Some(ArmorComponent2)
    else if LeaderPattern(leader, 3).value == pattern then Some(ArmorComponent3)
    else Nothing
  }

  /** With the four patterns read, the piece is the one of the first read pattern equal to the given one. */
  lemma PieceForRead(leader: Avatar, orders: Patterns, pattern: seq<MaterialItemType>)
    requires |leader.dna| >= SPEC_BYTES_END
    requires LeaderPattern(leader, 0) == Ok(orders.order1) && LeaderPattern(leader, 1) == Ok(orders.order2)
    requires LeaderPattern(leader, 2) == Ok(orders.order3) && LeaderPattern(leader, 3) == Ok(orders.order4)
    ensures PatternsReadable(leader)
    ensures PieceFor(leader, pattern) == (if orders.order1 == pattern then Some(ArmorBase)
                                          else if orders.order2 == pattern then Some(ArmorComponent1)
                                          else if orders.order3 == pattern then Some(ArmorComponent2)
                                          else if orders.order4 == pattern then Some(ArmorComponent3)
                                          else Nothing)
  {
  }

  /** A piece is found for a pattern only if it is three or four units of one material. */
  lemma PieceNeedsOneMaterial(leader: Avatar, pattern: seq<MaterialItemType>)
    requires |leader.dna| >= SPEC_BYTES_END && PatternsReadable(leader) && PieceFor(leader, pattern).Some?
    ensures |pattern| == 3 || |pattern| == 4
    ensures forall j | 0 <= j < |pattern| :: pattern[j] == pattern[0]
  {
    var k := if LeaderPattern(leader, 0).value == pattern then 0
             else if LeaderPattern(leader, 1).value == pattern then 1
             else if LeaderPattern(leader, 2).value == pattern then 2
             else 3;
    LeaderPatternShape(leader, k);
  }

  /**
   * The blueprint tinkering mints: `with_dna(base DNA).into_blueprint(..)`,
   * a rare blueprint of the leader's pet type for the matched piece, whose
   * spec bytes code the sacrifices' pattern and whose souls are the soul
   * points collected.
   */
  predicate IsTinkerBlueprint(blueprint: Avatar, seasonId: SeasonId, baseDna: seq<Byte>, pet: PetType,
                              piece: EquipableItemType, pattern: seq<MaterialItemType>, souls: U32)
    requires |baseDna| == V2_DNA_LENGTH && |pattern| <= 4
  {
    blueprint.seasonId == seasonId && blueprint.version == V2 && blueprint.souls == souls
    && |blueprint.dna| == V2_DNA_LENGTH
    && BlockOf(blueprint) == Block(ItemTypeIntoByte(ItemType.Blueprint), BlueprintIntoByte(BlueprintItemType.Blueprint),
                                   PetTypeIntoByte(pet), LowNibble(baseDna[1]), 1, RarityIntoByte(Rare), souls % 256, 0)
    && ReadSpecByte(blueprint, 1) == EnumsToBits(pattern, MaterialIntoByte)
    && ReadSpecByte(blueprint, 2) == EnumsOrderBits(pattern, MaterialIntoByte)
    && ReadSpecByte(blueprint, 3) == EquipableIntoByte(piece)
    && (forall n: SpecByte | 4 <= n <= 7 :: ReadSpecByte(blueprint, n) == 1)
    && forall i | 12 <= i < V2_DNA_LENGTH :: blueprint.dna[i] == baseDna[i]
  }

  /** The minting step of `tinker_avatars`. */
  method MintBlueprint(leader: Avatar, piece: EquipableItemType, pattern: seq<MaterialItemType>, souls: U32,
                       seasonId: SeasonId, provider: HashProvider)
    returns (blueprint: Avatar)
    requires provider.Valid() && HasV2Layout(leader) && |pattern| <= 4
    ensures IsTinkerBlueprint(blueprint, seasonId, provider.fullHashes(7)[..V2_DNA_LENGTH],
                              PetTypeFromByte(ReadAttribute(leader, AttrClassType2)), piece, pattern, souls)
  {
    var petType := ReadAttributeAs(leader, AttrClassType2, PetTypeFromByte);
    var slotType := ReadAttributeAs(leader, AttrClassType1, SlotFromByte);
    var dna := GenerateBaseAvatarDna(provider);
    var builder := new AvatarBuilder.WithDna(seasonId, dna.value);
    builder.IntoBlueprint(BlueprintItemType.Blueprint, petType, slotType, piece, pattern, souls);
    blueprint := builder.Build();
  }

  /** Tinkering applies: the patterns read, one equals the sacrifices' pattern, every sacrifice has a unit. */
  predicate TinkerApplies(leader: Avatar, sacrifices: seq<ForgeItem>)
    requires HasV2Layout(leader) && AllHaveAttributes(sacrifices)
  {
    PatternsReadable(leader) && PieceFor(leader, MaterialPattern(sacrifices)).Some? && AllCanUse(sacrifices, 1)
  }

  /**
   * `tinker_avatars`. The leader's four patterns are read (one listing no
   * material panics). When the sacrifices' pattern equals one of them and
   * each sacrifice has a unit, one unit of each is used and a blueprint for
   * the piece of the first equal pattern is minted holding the soul points
   * collected; more than 255 of them is a `todo!()`. Otherwise nothing
   * happens. The leader is handed back unchanged and the provider is only
   * read.
   */
  method TinkerAvatars(leader: ForgeItem, sacrifices: seq<ForgeItem>, seasonId: SeasonId, provider: HashProvider)
    returns (r: ForgeResult)
    requires provider.Valid() && HasV2Layout(leader.avatar) && AllHaveAttributes(sacrifices)
    ensures r.Err? ==> IsPanic(r.error)
    ensures !PatternsReadable(leader.avatar) ==> r.Err?
    ensures PatternsReadable(leader.avatar) && !TinkerApplies(leader.avatar, sacrifices) ==>
              r == Ok((LeaderForged(leader, 0), []))
    ensures TinkerApplies(leader.avatar, sacrifices) ==> (r.Ok? <==> UsedSouls(sacrifices) <= U8_MAX)
    ensures TinkerApplies(leader.avatar, sacrifices) && r.Ok? ==>
              TinkerOutputs(leader, sacrifices, seasonId, provider.fullHashes(7)[..V2_DNA_LENGTH], r.value)
  {
    var orders := ReadLeaderPatterns(leader.avatar);
    if orders.Err? {
      return Err(orders.error);
    }
    r := TinkerWithPatterns(leader, sacrifices, orders.value, seasonId, provider);
  }

  /** What a successful tinkering returns: the leader unchanged, the used sacrifices, then the blueprint. */
  predicate TinkerOutputs(leader: ForgeItem, sacrifices: seq<ForgeItem>, seasonId: SeasonId, baseDna: seq<Byte>,
                          result: (LeaderForgeOutput, seq<ForgeOutput>))
    requires HasV2Layout(leader.avatar) && AllHaveAttributes(sacrifices) && |baseDna| == V2_DNA_LENGTH
    requires TinkerApplies(leader.avatar, sacrifices)
  {
    var outputs := result.1;
    var pattern := MaterialPattern(sacrifices);
    PieceNeedsOneMaterial(leader.avatar, pattern);
    result.0 == LeaderForged(leader, 0)
    && |outputs| == |sacrifices| + 1 && outputs[..|sacrifices|] == UseOutputs(sacrifices)
    && outputs[|sacrifices|].Minted?
    && IsTinkerBlueprint(outputs[|sacrifices|].avatar, seasonId, baseDna,
                         PetTypeFromByte(ReadAttribute(leader.avatar, AttrClassType2)),
                         PieceFor(leader.avatar, pattern).value, pattern, UsedSouls(sacrifices))
  }

  /** The rest of `tinker_avatars` once the four patterns are read. */
  method TinkerWithPatterns(leader: ForgeItem, sacrifices: seq<ForgeItem>, orders: Patterns,
                            seasonId: SeasonId, provider: HashProvider)
    returns (r: ForgeResult)
    requires provider.Valid() && HasV2Layout(leader.avatar) && AllHaveAttributes(sacrifices)
    requires LeaderPattern(leader.avatar, 0) == Ok(orders.order1) && LeaderPattern(leader.avatar, 1) == Ok(orders.order2)
    requires LeaderPattern(leader.avatar, 2) == Ok(orders.order3) && LeaderPattern(leader.avatar, 3) == Ok(orders.order4)
    ensures r.Err? ==> r.error == Unimplemented
    ensures !TinkerApplies(leader.avatar, sacrifices) ==> r == Ok((LeaderForged(leader, 0), []))
    ensures TinkerApplies(leader.avatar, sacrifices) ==> (r.Ok? <==> UsedSouls(sacrifices) <= U8_MAX)
    ensures TinkerApplies(leader.avatar, sacrifices) && r.Ok? ==>
              TinkerOutputs(leader, sacrifices, seasonId, provider.fullHashes(7)[..V2_DNA_LENGTH], r.value)
  {
    var pattern := MaterialPattern(sacrifices);
    var flag1, flag2, flag3, flag4 := pattern == orders.order1, pattern == orders.order2,
                                      pattern == orders.order3, pattern == orders.order4;
    PieceForRead(leader.avatar, orders, pattern);
    if (flag1 || flag2 || flag3 || flag4) && AllCanUse(sacrifices, 1) {
      var piece := if flag1 then ArmorBase else if flag2 then ArmorComponent1
                   else if flag3 then ArmorComponent2 else ArmorComponent3;
      r := TinkerMint(leader, sacrifices, piece, seasonId, provider);
    } else {
      r := Ok((LeaderForged(leader, 0), []));
    }
  }

  /** Tinkering once a pattern matched: one unit of each sacrifice is used and the blueprint minted. */
  method TinkerMint(leader: ForgeItem, sacrifices: seq<ForgeItem>, piece: EquipableItemType,
                    seasonId: SeasonId, provider: HashProvider)
    returns (r: ForgeResult)
    requires provider.Valid() && HasV2Layout(leader.avatar) && AllHaveAttributes(sacrifices)
    requires TinkerApplies(leader.avatar, sacrifices)
    requires PieceFor(leader.avatar, MaterialPattern(sacrifices)) == Some(piece)
    ensures r.Err? ==> r.error == Unimplemented
    ensures r.Ok? <==> UsedSouls(sacrifices) <= U8_MAX
    ensures r.Ok? ==> TinkerOutputs(leader, sacrifices, seasonId, provider.fullHashes(7)[..V2_DNA_LENGTH], r.value)
  {
    var pattern := MaterialPattern(sacrifices);
    var used, soulPoints, success := UseSacrifices(sacrifices);
    if !success || soulPoints > U8_MAX {
      return Err(Unimplemented);
    }
    PieceNeedsOneMaterial(leader.avatar, pattern);
    var blueprint := MintBlueprint(leader.avatar, piece, pattern, soulPoints, seasonId, provider);
    var outputs := used + [Minted(blueprint)];
    assert outputs[..|sacrifices|] == used;
    r := Ok((LeaderForged(leader, 0), outputs));
  }

  // ----- build -----

  /** The six rounds of `build_avatars`. */
  const MAX_BUILD: nat := 6

  /** What the build chance drops by each round, about 15% of 255. */
  const BUILD_PROBABILITY_STEP: Byte := 38

  /** The build chance of a round: 255, lowered by 38 each round with saturation. */
  function BuildProp(round: nat): (r: Byte)
    ensures r == SatSub(U8_MAX, BUILD_PROBABILITY_STEP * round)
  {
    if round == 0 then U8_MAX else SatSub(BuildProp(round - 1), BUILD_PROBABILITY_STEP)
  }

  /**
   * How many of the first `rounds` build rounds mint an equipable: a round
   * mints when its drawn byte is at most the round's chance and a soul
   * point is left, and each mint spends one. So no more mints than soul
   * points, and with any soul point the first round always mints.
   */
  function BuildMints(draws: seq<Byte>, souls: nat, rounds: nat): (r: nat)
    requires rounds <= |draws|
    ensures r <= souls && r <= rounds
    ensures souls > 0 && rounds > 0 ==> r > 0
  {
    if rounds == 0 then 0
    else
      var before := BuildMints(draws, souls, rounds - 1);
      before + (if BuildProp(rounds - 1) >= draws[rounds - 1] && souls - before > 0 then 1 else 0)
  }

  /** The quantities the sacrifices must have, by position: 1, then spec bytes 4 to 7 of the leader. */
  function BuildQuantities(leader: Avatar): (r: seq<Byte>)
    requires |leader.dna| >= SPEC_BYTES_END
    ensures |r| == 5 && r[0] == 1
    ensures forall i | 1 <= i < 5 :: r[i] == ReadSpecByte(leader, i + 3)
  {
    [1, ReadSpecByte(leader, 4), ReadSpecByte(leader, 5), ReadSpecByte(leader, 6), ReadSpecByte(leader, 7)]
  }

  /**
   * Building applies: the leader's first pattern reads and equals the
   * sacrifices' pattern, each sacrifice has the quantity of its position,
   * and each has a unit to use.
   */
  predicate BuildApplies(leader: Avatar, sacrifices: seq<ForgeItem>)
    requires HasV2Layout(leader) && AllHaveAttributes(sacrifices)
  {
    var quantities := BuildQuantities(leader);
    LeaderPattern(leader, 0).Ok? && MaterialPattern(sacrifices) == LeaderPattern(leader, 0).value
    && (forall i | 0 <= i < |sacrifices| :: i < 5 && CanUseAvatar(sacrifices[i].avatar, quantities[i]))
    && AllCanUse(sacrifices, 1)
  }

  /**
   * Only three or four sacrifices of a single material can build, each
   * with at least the leader's quantity for its position.
   */
  lemma BuildNeedsOneMaterial(leader: Avatar, sacrifices: seq<ForgeItem>)
    requires HasV2Layout(leader) && AllHaveAttributes(sacrifices) && BuildApplies(leader, sacrifices)
    ensures |sacrifices| == 3 || |sacrifices| == 4
    ensures forall j | 0 <= j < |sacrifices| ::
              MaterialFromByte(ReadAttribute(sacrifices[j].avatar, AttrItemSubType))
              == MaterialFromByte(ReadAttribute(sacrifices[0].avatar, AttrItemSubType))
    ensures forall j | 1 <= j < |sacrifices| :: ReadAttribute(sacrifices[j].avatar, AttrQuantity) >= ReadSpecByte(leader, j + 3)
  {
    LeaderPatternShape(leader, 0);
    var quantities := BuildQuantities(leader);
    assert forall j | 1 <= j < |sacrifices| :: CanUseAvatar(sacrifices[j].avatar, quantities[j]);
  }

  /**
   * An equipable `build_avatars` mints: `with_dna(base DNA).into_equipable(..)`
   * of the type spec byte 3 of the leader names, of the leader's pet type,
   * common, holding one soul.
   */
  predicate IsBuildEquipable(equipable: Avatar, seasonId: SeasonId, baseDna: seq<Byte>, leader: Avatar)
    requires |baseDna| == V2_DNA_LENGTH && HasV2Layout(leader)
  {
    var equipableType := EquipableFromByte(ReadSpecByte(leader, 3));
    equipable.seasonId == seasonId && equipable.version == V2 && |equipable.dna| == V2_DNA_LENGTH
    && BlockOf(equipable) == Block(ItemTypeIntoByte(Equipable), EquipableIntoByte(equipableType),
                                   PetTypeIntoByte(PetTypeFromByte(ReadAttribute(leader, AttrClassType2))),
                                   LowNibble(baseDna[1]), 0, RarityIntoByte(Common), 1, 0)
    && ReadSpecByte(equipable, 1) == ArmorAssembleProgress(equipableType)
    && (forall n: SpecByte | 2 <= n <= 8 :: ReadSpecByte(equipable, n) == 0)
    && forall i | 13 <= i < V2_DNA_LENGTH :: equipable.dna[i] == baseDna[i]
  }

  /** The minting step of a build round. */
  method MintEquipable(leader: Avatar, seasonId: SeasonId, provider: HashProvider) returns (equipable: Avatar)
    requires provider.Valid() && HasV2Layout(leader)
    ensures IsBuildEquipable(equipable, seasonId, provider.fullHashes(7)[..V2_DNA_LENGTH], leader)
    ensures equipable.souls == 1
  {
    var petType := ReadAttributeAs(leader, AttrClassType2, PetTypeFromByte);
    var slotType := ReadAttributeAs(leader, AttrClassType1, SlotFromByte);
    var equipableType := ReadSpecByteAs(leader, 3, EquipableFromByte);
    var dna := GenerateBaseAvatarDna(provider);
    var builder := new AvatarBuilder.WithDna(seasonId, dna.value);
    builder.IntoEquipable(equipableType, petType, slotType, Common, 1);
    equipable := builder.Build();
  }

  /** Every equipable is one a build round mints, holding its one soul. */
  predicate AllBuildEquipables(generated: seq<Avatar>, seasonId: SeasonId, baseDna: seq<Byte>, leader: Avatar)
    requires |baseDna| == V2_DNA_LENGTH && HasV2Layout(leader)
  {
    forall g | g in generated :: IsBuildEquipable(g, seasonId, baseDna, leader) && g.souls == 1
  }

  /** What the byte drawn in a round does: at most the round's chance, with a soul point left, it mints. */
  method BuildRound(leader: Avatar, byte: Byte, buildProp: Byte, generated: seq<Avatar>, remaining: U32,
                    seasonId: SeasonId, provider: HashProvider)
    returns (nextGenerated: seq<Avatar>, nextRemaining: U32)
    requires provider.Valid() && HasV2Layout(leader)
    requires AllBuildEquipables(generated, seasonId, provider.fullHashes(7)[..V2_DNA_LENGTH], leader)
    ensures var hit := if buildProp >= byte && remaining > 0 then 1 else 0;
            |nextGenerated| == |generated| + hit && nextRemaining == remaining - hit
    ensures AllBuildEquipables(nextGenerated, seasonId, provider.fullHashes(7)[..V2_DNA_LENGTH], leader)
  {
    nextGenerated, nextRemaining := generated, remaining;
    if buildProp >= byte && remaining > 0 {
      var equipable := MintEquipable(leader, seasonId, provider);
      nextGenerated := generated + [equipable];
      nextRemaining := SatSub(remaining, 1);
    }
  }

  /**
   * The six build rounds: one byte drawn per round; the round mints an
   * equipable holding one soul when the byte is at most the round's chance
   * and soul points are left, spending one of them.
   */
  method BuildRounds(leader: Avatar, soulPoints: U32, seasonId: SeasonId, provider: HashProvider)
    returns (generated: seq<Avatar>, remaining: U32)
    requires provider.Valid() && HasV2Layout(leader)
    modifies provider
    ensures provider.Valid()
    ensures provider.currentIndex == (old(provider.currentIndex) + MAX_BUILD) % HASH_LENGTH
    ensures |generated| == BuildMints(old(provider.Ahead(MAX_BUILD)), soulPoints, MAX_BUILD)
    ensures remaining == soulPoints - |generated|
    ensures AllBuildEquipables(generated, seasonId, provider.fullHashes(7)[..V2_DNA_LENGTH], leader)
  {
    ghost var start := provider.currentIndex;
    ghost var ahead := provider.Ahead(MAX_BUILD);
    ghost var baseDna := provider.fullHashes(7)[..V2_DNA_LENGTH];
    var buildProp := U8_MAX;
    generated, remaining := [], soulPoints;
    for round := 0 to MAX_BUILD
      invariant provider.Valid() && baseDna == provider.fullHashes(7)[..V2_DNA_LENGTH]
      invariant provider.currentIndex == (start + round) % HASH_LENGTH
      invariant buildProp == BuildProp(round)
      invariant |generated| == BuildMints(ahead, soulPoints, round)
      invariant remaining == soulPoints - |generated|
      invariant AllBuildEquipables(generated, seasonId, baseDna, leader)
    {
      var byte := provider.GetHashByte();
      WrapAbsorbs(start + round, 1);
      assert byte == ahead[round];
      generated, remaining := BuildRound(leader, byte, buildProp, generated, remaining, seasonId, provider);
      buildProp := SatSub(buildProp, BUILD_PROBABILITY_STEP);
    }
  }

  /** How many of the drawn bytes pick position `i`, the byte taken modulo `slots`. */
  function Picks(draws: seq<Byte>, slots: nat, i: nat): (r: nat)
    ensures r <= |draws|
    ensures slots == 0 || i >= slots ==> r == 0
  {
    if |draws| == 0 then 0
    else Picks(draws[..|draws| - 1], slots, i) + (if slots > 0 && draws[|draws| - 1] % slots == i then 1 else 0)
  }

  /** Every drawn byte, modulo `slots`, picks one of the first `n` positions. */
  predicate PicksFit(draws: seq<Byte>, slots: nat, n: nat)
  {
    forall j | 0 <= j < |draws| :: slots > 0 && draws[j] % slots < n
  }

  /** The picks of the first `n` positions, summed. */
  function PicksBelow(draws: seq<Byte>, slots: nat, n: nat): nat
  {
    if n == 0 then 0 else PicksBelow(draws, slots, n - 1) + Picks(draws, slots, n - 1)
  }

  /**
   * When every byte picks one of the first `n` positions, those positions
   * are picked `|draws|` times in all: no drawn soul point is lost.
   */
  lemma {:induction false} PicksAddUp(draws: seq<Byte>, slots: nat, n: nat)
    requires PicksFit(draws, slots, n)
    ensures PicksBelow(draws, slots, n) == |draws|
  {
    if |draws| == 0 {
      PicksBelowNothing(draws, slots, n);
    } else {
      var front := draws[..|draws| - 1];
      assert PicksFit(front, slots, n) by {
        assert forall j | 0 <= j < |front| :: front[j] == draws[j];
      }
      PicksAddUp(front, slots, n);
      PicksBelowStep(draws, slots, n, draws[|draws| - 1] % slots);
    }
  }

  /** No draws pick nothing. */
  lemma {:induction false} PicksBelowNothing(draws: seq<Byte>, slots: nat, n: nat)
    requires |draws| == 0
    ensures PicksBelow(draws, slots, n) == 0
  {
    if n > 0 {
      PicksBelowNothing(draws, slots, n - 1);
    }
  }

  /** Adding the last byte to the draws adds one to the sum exactly when it picks one of the first `n` positions. */
  lemma {:induction false} PicksBelowStep(draws: seq<Byte>, slots: nat, n: nat, last: nat)
    requires |draws| > 0 && slots > 0 && last == draws[|draws| - 1] % slots
    ensures PicksBelow(draws, slots, n) == PicksBelow(draws[..|draws| - 1], slots, n) + (if last < n then 1 else 0)
  {
    if n > 0 {
      PicksBelowStep(draws, slots, n - 1, last);
    }
  }

  /** A soul count raised by `extra` saturating increments. */
  function CapU32(n: nat): (r: U32)
    ensures n <= U32_MAX ==> r == n
    ensures n > U32_MAX ==> r == U32_MAX
  {
    if n > U32_MAX then U32_MAX else n
  }

  /** An avatar whose souls went up by `extra` saturating increments. */
  function Raised(avatar: Avatar, extra: nat): Avatar
  {
    avatar.(souls := CapU32(avatar.souls + extra))
  }

  /** The equipables after the soul points the draws pick have been spread over them. */
  function Spread(generated: seq<Avatar>, draws: seq<Byte>, slots: nat): (r: seq<Avatar>)
    ensures |r| == |generated|
    ensures forall i | 0 <= i < |generated| :: r[i] == Raised(generated[i], Picks(draws, slots, i))
  {
    seq(|generated|, i requires 0 <= i < |generated| => Raised(generated[i], Picks(draws, slots, i)))
  }

  /** One more draw raises the souls of the equipable it picks by one, saturating. */
  lemma SpreadStep(generated: seq<Avatar>, draws: seq<Byte>, slots: nat, k: nat)
    requires k < |draws| && slots > 0 && draws[k] % slots < |generated|
    ensures var before := Spread(generated, draws[..k], slots);
            var index := draws[k] % slots;
            Spread(generated, draws[..k + 1], slots)
            == before[index := before[index].(souls := SatAddU32(before[index].souls, 1))]
  {
    assert draws[..k + 1][..k] == draws[..k];
  }

  /** The first `k + 1` draws fit when the first `k` do and the next one does. */
  lemma PicksFitStep(draws: seq<Byte>, slots: nat, n: nat, k: nat)
    requires k < |draws|
    ensures PicksFit(draws[..k + 1], slots, n) <==> PicksFit(draws[..k], slots, n) && slots > 0 && draws[k] % slots < n
  {
    assert draws[..k + 1][..k] == draws[..k];
    assert draws[..k + 1][k] == draws[k];
  }

  /**
   * The soul spreading loop of `build_avatars`: for each remaining soul
   * point a byte is drawn; modulo the number of used sacrifices it picks an
   * equipable, whose souls go up by one with saturation. The number of
   * sacrifices is 0 is a division by zero, a pick past the minted
   * equipables an index panic.
   */
  method SpreadSouls(generated: seq<Avatar>, points: U32, slots: nat, provider: HashProvider)
    returns (r: Result<seq<Avatar>>)
    requires provider.Valid()
    modifies provider
    ensures provider.Valid()
    ensures r.Err? ==> IsPanic(r.error)
    ensures r.Ok? <==> PicksFit(old(provider.Ahead(points)), slots, |generated|)
    ensures r.Ok? ==> provider.currentIndex == (old(provider.currentIndex) + points) % HASH_LENGTH
    ensures r.Ok? ==> r.value == Spread(generated, old(provider.Ahead(points)), slots)
  {
    ghost var start := provider.currentIndex;
    ghost var ahead := provider.Ahead(points);
    var current := generated;
    assert ahead[..0] == [];
    for k := 0 to points
      invariant provider.Valid()
      invariant provider.currentIndex == (start + k) % HASH_LENGTH
      invariant PicksFit(ahead[..k], slots, |generated|)
      invariant current == Spread(generated, ahead[..k], slots)
    {
      var byte := provider.GetHashByte();
      WrapAbsorbs(start + k, 1);
      assert byte == ahead[k];
      PicksFitStep(ahead, slots, |generated|, k);
      if slots == 0 {
        PicksFitUpTo(ahead, slots, |generated|, k + 1);
        return Err(DivisionByZero);
      }
      var index := byte % slots;
      if index >= |current| {
        PicksFitUpTo(ahead, slots, |generated|, k + 1);
        return Err(IndexOutOfBounds);
      }
      SpreadStep(generated, ahead, slots, k);
      current := current[index := current[index].(souls := SatAddU32(current[index].souls, 1))];
    }
    assert ahead[..points] == ahead;
    r := Ok(current);
  }

  /** Draws that do not fit up to `k` do not fit at all. */
  lemma PicksFitUpTo(draws: seq<Byte>, slots: nat, n: nat, k: nat)
    requires k <= |draws| && !PicksFit(draws[..k], slots, n)
    ensures !PicksFit(draws, slots, n)
  {
    var j :| 0 <= j < k && !(slots > 0 && draws[..k][j] % slots < n);
    assert draws[..k][j] == draws[j];
  }

  /** Each avatar as a minted output. */
  function MintedAll(avatars: seq<Avatar>): (r: seq<ForgeOutput>)
    ensures |r| == |avatars| && forall i | 0 <= i < |avatars| :: r[i] == Minted(avatars[i])
  {
    seq(|avatars|, i requires 0 <= i < |avatars| => Minted(avatars[i]))
  }

  /** The avatars of minted outputs. */
  function MintedAvatars(outputs: seq<ForgeOutput>): (r: seq<Avatar>)
    requires forall i | 0 <= i < |outputs| :: outputs[i].Minted?
    ensures |r| == |outputs| && forall i | 0 <= i < |outputs| :: outputs[i] == Minted(r[i])
  {
    seq(|outputs|, i requires 0 <= i < |outputs| => outputs[i].avatar)
  }

  /** Equipables as the build rounds mint them, each with its one soul and the soul points it was picked for. */
  predicate BuildEquipables(equipables: seq<Avatar>, seasonId: SeasonId, baseDna: seq<Byte>, leader: Avatar,
                            spread: seq<Byte>, slots: nat)
    requires |baseDna| == V2_DNA_LENGTH && HasV2Layout(leader)
  {
    forall i | 0 <= i < |equipables| ::
      IsBuildEquipable(equipables[i], seasonId, baseDna, leader) && equipables[i].souls == CapU32(1 + Picks(spread, slots, i))
  }

  /**
   * What a successful build returns after the leader: the used sacrifices,
   * then one equipable per minting round, each holding its one soul plus
   * the soul points the spreading draws picked it for.
   */
  predicate BuildOutputs(leader: Avatar, used: seq<ForgeOutput>, souls: U32, seasonId: SeasonId, baseDna: seq<Byte>,
                         rounds: seq<Byte>, spread: seq<Byte>, outputs: seq<ForgeOutput>)
    requires HasV2Layout(leader) && |baseDna| == V2_DNA_LENGTH && |rounds| == MAX_BUILD
  {
    |outputs| == |used| + BuildMints(rounds, souls, MAX_BUILD)
    && outputs[..|used|] == used
    && (forall i | |used| <= i < |outputs| :: outputs[i].Minted?)
    && BuildEquipables(MintedAvatars(outputs[|used|..]), seasonId, baseDna, leader, spread, |used|)
  }

  /** The used sacrifices followed by such equipables are what a successful build returns. */
  lemma BuildOutputsOf(leader: Avatar, used: seq<ForgeOutput>, souls: U32, seasonId: SeasonId, baseDna: seq<Byte>,
                       rounds: seq<Byte>, spread: seq<Byte>, equipables: seq<Avatar>)
    requires HasV2Layout(leader) && |baseDna| == V2_DNA_LENGTH
    requires |rounds| == MAX_BUILD && |equipables| == BuildMints(rounds, souls, MAX_BUILD)
    requires BuildEquipables(equipables, seasonId, baseDna, leader, spread, |used|)
    ensures BuildOutputs(leader, used, souls, seasonId, baseDna, rounds, spread, used + MintedAll(equipables))
  {
    var all := used + MintedAll(equipables);
    assert all[..|used|] == used;
    assert all[|used|..] == MintedAll(equipables);
    assert MintedAvatars(MintedAll(equipables)) == equipables;
  }

  /**
   * The six build rounds, then the spreading of the soul points left over
   * the equipables minted, picked modulo `slots`.
   */
  method MintAndSpread(leader: Avatar, soulPoints: U32, slots: nat, seasonId: SeasonId, provider: HashProvider)
    returns (r: Result<seq<Avatar>>)
    requires provider.Valid() && HasV2Layout(leader)
    modifies provider
    ensures provider.Valid()
    ensures r.Err? ==> IsPanic(r.error)
    ensures var minted := BuildMints(Window(provider.hash, old(provider.currentIndex), MAX_BUILD), soulPoints, MAX_BUILD);
            var spread := Window(provider.hash, (old(provider.currentIndex) + MAX_BUILD) % HASH_LENGTH, soulPoints - minted);
            (r.Ok? <==> PicksFit(spread, slots, minted))
            && (r.Ok? ==> |r.value| == minted
                          && BuildEquipables(r.value, seasonId, provider.fullHashes(7)[..V2_DNA_LENGTH], leader, spread, slots))
  {
    ghost var start := provider.currentIndex;
    var generated, remaining := BuildRounds(leader, soulPoints, seasonId, provider);
    ghost var spread := provider.Ahead(remaining);
    r := SpreadSouls(generated, remaining, slots, provider);
    SpreadKeepsEquipables(generated, spread, slots, seasonId, provider.fullHashes(7)[..V2_DNA_LENGTH], leader);
  }

  /** Spreading soul points over minted equipables changes only their souls. */
  lemma SpreadKeepsEquipables(generated: seq<Avatar>, spread: seq<Byte>, slots: nat, seasonId: SeasonId,
                              baseDna: seq<Byte>, leader: Avatar)
    requires |baseDna| == V2_DNA_LENGTH && HasV2Layout(leader)
    requires AllBuildEquipables(generated, seasonId, baseDna, leader)
    ensures BuildEquipables(Spread(generated, spread, slots), seasonId, baseDna, leader, spread, slots)
  {
    var spreaded := Spread(generated, spread, slots);
    forall i | 0 <= i < |generated|
      ensures IsBuildEquipable(spreaded[i], seasonId, baseDna, leader)
      ensures spreaded[i].souls == CapU32(1 + Picks(spread, slots, i))
    {
      assert generated[i] in generated;
      SoulsAside(generated[i], spreaded[i].souls, seasonId, baseDna, leader);
    }
  }

  /** Whether an avatar is a minted equipable does not depend on its souls. */
  lemma SoulsAside(equipable: Avatar, souls: U32, seasonId: SeasonId, baseDna: seq<Byte>, leader: Avatar)
    requires |baseDna| == V2_DNA_LENGTH && HasV2Layout(leader)
    requires IsBuildEquipable(equipable, seasonId, baseDna, leader)
    ensures IsBuildEquipable(equipable.(souls := souls), seasonId, baseDna, leader)
  {
    var raised := equipable.(souls := souls);
    assert BlockOf(raised) == BlockOf(equipable);
    forall n: SpecByte | 1 <= n <= 8
      ensures ReadSpecByte(raised, n) == ReadSpecByte(equipable, n)
    {
    }
  }

  /**
   * The outcome of a build from the provider's hash and cursor, once the
   * sacrifices are used: the six round bytes decide how many equipables are
   * minted, and the bytes after them, one per soul point left, whether the
   * spreading stays within the minted equipables and, if so, what is
   * returned.
   */
  predicate BuildOutcome(leader: ForgeItem, used: seq<ForgeOutput>, souls: U32, seasonId: SeasonId, baseDna: seq<Byte>,
                         hash: seq<Byte>, start: nat, r: ForgeResult)
    requires HasV2Layout(leader.avatar) && |baseDna| == V2_DNA_LENGTH && |hash| == HASH_LENGTH
  {
    var rounds := Window(hash, start, MAX_BUILD);
    var minted := BuildMints(rounds, souls, MAX_BUILD);
    var spread := Window(hash, (start + MAX_BUILD) % HASH_LENGTH, souls - minted);
    (r.Ok? <==> PicksFit(spread, |used|, minted))
    && (r.Ok? ==> r.value.0 == LeaderForged(leader, 0)
                  && BuildOutputs(leader.avatar, used, souls, seasonId, baseDna, rounds, spread, r.value.1))
  }

  /** The rest of `build_avatars` once the sacrifices are used: the rounds, the spreading, the outputs. */
  method BuildFrom(leader: ForgeItem, used: seq<ForgeOutput>, souls: U32, seasonId: SeasonId, provider: HashProvider)
    returns (r: ForgeResult)
    requires provider.Valid() && HasV2Layout(leader.avatar)
    modifies provider
    ensures provider.Valid()
    ensures r.Err? ==> IsPanic(r.error)
    ensures BuildOutcome(leader, used, souls, seasonId, provider.fullHashes(7)[..V2_DNA_LENGTH], provider.hash,
                         old(provider.currentIndex), r)
  {
    ghost var start := provider.currentIndex;
    var equipables := MintAndSpread(leader.avatar, souls, |used|, seasonId, provider);
    BuildOutcomeOf(leader, used, souls, seasonId, provider.fullHashes(7)[..V2_DNA_LENGTH], provider.hash, start,
                   equipables);
    if equipables.Err? {
      return Err(equipables.error);
    }
    r := Ok((LeaderForged(leader, 0), used + MintedAll(equipables.value)));
  }

  /** What the rounds and the spreading give, placed after the used sacrifices, is the build's outcome. */
  lemma BuildOutcomeOf(leader: ForgeItem, used: seq<ForgeOutput>, souls: U32, seasonId: SeasonId, baseDna: seq<Byte>,
                       hash: seq<Byte>, start: nat, equipables: Result<seq<Avatar>>)
    requires HasV2Layout(leader.avatar) && |baseDna| == V2_DNA_LENGTH && |hash| == HASH_LENGTH
    requires var minted := BuildMints(Window(hash, start, MAX_BUILD), souls, MAX_BUILD);
             var spread := Window(hash, (start + MAX_BUILD) % HASH_LENGTH, souls - minted);
             (equipables.Ok? <==> PicksFit(spread, |used|, minted))
             && (equipables.Ok? ==> |equipables.value| == minted
                                    && BuildEquipables(equipables.value, seasonId, baseDna, leader.avatar, spread, |used|))
    ensures BuildOutcome(leader, used, souls, seasonId, baseDna, hash, start,
                         if equipables.Ok? then Ok((LeaderForged(leader, 0), used + MintedAll(equipables.value)))
                         else Err(equipables.error))
  {
    var rounds := Window(hash, start, MAX_BUILD);
    var minted := BuildMints(rounds, souls, MAX_BUILD);
    var spread := Window(hash, (start + MAX_BUILD) % HASH_LENGTH, souls - minted);
    if equipables.Ok? {
      BuildOutputsOf(leader.avatar, used, souls, seasonId, baseDna, rounds, spread, equipables.value);
    }
  }

  /**
   * `build_avatars`. The leader's first pattern is read (listing no
   * material panics). When it equals the sacrifices' pattern and each
   * sacrifice has the quantity of its position, one unit of each is used,
   * six rounds mint common equipables of the piece spec byte 3 names, and
   * the soul points collected and left are spread over them by draws taken
   * modulo the number of sacrifices, a draw past the minted equipables
   * being an index panic. Any other input, and a sacrifice without a unit,
   * is a `todo!()`. The leader is handed back unchanged.
   */
  method BuildAvatars(leader: ForgeItem, sacrifices: seq<ForgeItem>, seasonId: SeasonId, provider: HashProvider)
    returns (r: ForgeResult)
    requires provider.Valid() && HasV2Layout(leader.avatar) && AllHaveAttributes(sacrifices)
    modifies provider
    ensures provider.Valid()
    ensures r.Err? ==> IsPanic(r.error)
    ensures !BuildApplies(leader.avatar, sacrifices) ==> r.Err?
    ensures BuildApplies(leader.avatar, sacrifices) ==>
              BuildOutcome(leader, UseOutputs(sacrifices), UsedSouls(sacrifices), seasonId,
                           provider.fullHashes(7)[..V2_DNA_LENGTH], provider.hash, old(provider.currentIndex), r)
  {
    var matched := MatchBuildPattern(leader.avatar, sacrifices);
    if matched.Err? {
      return Err(matched.error);
    }
    if !matched.value {
      return Err(Unimplemented);
    }
    var outputs, soulPoints, success := UseSacrifices(sacrifices);
    if !success {
      return Err(Unimplemented);
    }
    r := BuildFrom(leader, outputs, soulPoints, seasonId, provider);
  }

  /**
   * The checks `build_avatars` makes before using the sacrifices: the
   * leader's first pattern is read (a panic when it lists no material),
   * then compared with the sacrifices' pattern, then each sacrifice's
   * quantity with that of its position.
   */
  method MatchBuildPattern(leader: Avatar, sacrifices: seq<ForgeItem>) returns (r: Result<bool>)
    requires HasV2Layout(leader) && AllHaveAttributes(sacrifices)
    ensures r.Err? <==> LeaderPattern(leader, 0).Err?
    ensures r.Err? ==> r.error == IndexOutOfBounds
    ensures r == Ok(false) ==> !BuildApplies(leader, sacrifices)
    ensures r == Ok(true) ==> (BuildApplies(leader, sacrifices) <==> AllCanUse(sacrifices, 1))
  {
    var pattern1 := ReadLeaderPattern(leader, 0);
    if pattern1.Err? {
      return Err(pattern1.error);
    }
    var quantities := BuildQuantities(leader);
    var pattern := MaterialPattern(sacrifices);
    if pattern != pattern1.value {
      return Ok(false);
    }
    PatternFitsQuantities(leader, sacrifices);
    var quantitiesMet := forall i | 0 <= i < |sacrifices| :: CanUseAvatar(sacrifices[i].avatar, quantities[i]);
    if !quantitiesMet {
      return Ok(false);
    }
    BuildAppliesWhenMatched(leader, sacrifices);
    r := Ok(true);
  }

  /** Once the pattern and the quantities are met, building applies exactly when every sacrifice has a unit. */
  lemma BuildAppliesWhenMatched(leader: Avatar, sacrifices: seq<ForgeItem>)
    requires HasV2Layout(leader) && AllHaveAttributes(sacrifices) && |sacrifices| < 5
    requires LeaderPattern(leader, 0).Ok? && MaterialPattern(sacrifices) == LeaderPattern(leader, 0).value
    requires forall i | 0 <= i < |sacrifices| :: CanUseAvatar(sacrifices[i].avatar, BuildQuantities(leader)[i])
    ensures BuildApplies(leader, sacrifices) <==> AllCanUse(sacrifices, 1)
  {
  }

  /** Sacrifices matching the leader's first pattern are at most four, so each position has a quantity. */
  lemma PatternFitsQuantities(leader: Avatar, sacrifices: seq<ForgeItem>)
    requires HasV2Layout(leader) && AllHaveAttributes(sacrifices)
    requires LeaderPattern(leader, 0).Ok? && MaterialPattern(sacrifices) == LeaderPattern(leader, 0).value
    ensures |sacrifices| < 5
  {
    LeaderPatternShape(leader, 0);
  }

  /** The souls of a sequence of avatars, summed. */
  function SoulsOf(avatars: seq<Avatar>): nat
  {
    if |avatars| == 0 then 0 else SoulsOf(avatars[..|avatars| - 1]) + avatars[|avatars| - 1].souls
  }

  /** The first `n` equipables hold one soul each plus the picks of their positions. */
  lemma {:induction false} SoulsOfPicked(equipables: seq<Avatar>, spread: seq<Byte>, slots: nat, n: nat)
    requires n <= |equipables|
    requires forall i | 0 <= i < |equipables| :: equipables[i].souls == 1 + Picks(spread, slots, i)
    ensures SoulsOf(equipables[..n]) == n + PicksBelow(spread, slots, n)
  {
    if n > 0 {
      SoulsOfPicked(equipables, spread, slots, n - 1);
      assert equipables[..n][..n - 1] == equipables[..n - 1];
    }
  }

  /**
   * No soul point is lost nor made by a successful build: the equipables
   * minted hold, together, exactly the soul points the sacrifices gave.
   */
  lemma BuildKeepsSouls(leader: ForgeItem, used: seq<ForgeOutput>, souls: U32, seasonId: SeasonId, baseDna: seq<Byte>,
                        hash: seq<Byte>, start: nat, r: ForgeResult)
    requires HasV2Layout(leader.avatar) && |baseDna| == V2_DNA_LENGTH && |hash| == HASH_LENGTH
    requires BuildOutcome(leader, used, souls, seasonId, baseDna, hash, start, r) && r.Ok?
    ensures |r.value.1| >= |used| && forall i | |used| <= i < |r.value.1| :: r.value.1[i].Minted?
    ensures SoulsOf(MintedAvatars(r.value.1[|used|..])) == souls
  {
    var rounds := Window(hash, start, MAX_BUILD);
    var minted := BuildMints(rounds, souls, MAX_BUILD);
    var spread := Window(hash, (start + MAX_BUILD) % HASH_LENGTH, souls - minted);
    var equipables := MintedAvatars(r.value.1[|used|..]);
    forall i | 0 <= i < |equipables|
      ensures equipables[i].souls == 1 + Picks(spread, |used|, i)
    {
      assert 1 + Picks(spread, |used|, i) <= U32_MAX;
    }
    SoulsOfPicked(equipables, spread, |used|, minted);
    PicksAddUp(spread, |used|, minted);
    assert equipables[..minted] == equipables;
  }

  // ----- equip -----

  /** The occupancy of the sixteen slots: each spec byte masked with `ByteType::Low`, its high nibble. */
  function Occupancy(specBytes: seq<Byte>): (r: seq<Byte>)
    ensures |r| == |specBytes|
    ensures forall i | 0 <= i < |specBytes| :: r[i] == And8(specBytes[i], 0xF0)
  {
    seq(|specBytes|, i requires 0 <= i < |specBytes| => And8(specBytes[i], 0xF0))
  }

  /** How many slots are filled: the occupancy entries above zero. */
  function FilledSlots(occupancy: seq<Byte>): (r: nat)
    ensures r <= |occupancy|
    ensures r == 0 <==> forall i | 0 <= i < |occupancy| :: occupancy[i] == 0
  {
    if |occupancy| == 0 then 0
    else FilledSlots(occupancy[..|occupancy| - 1]) + (if occupancy[|occupancy| - 1] > 0 then 1 else 0)
  }

  /** The slot a sacrifice goes to: its class type 1 nibble. */
  function SlotOf(sacrifice: Avatar): (r: nat)
    requires |sacrifice.dna| >= ATTRIBUTE_BYTES
    ensures r < 16
  {
    ReadAttribute(sacrifice, AttrClassType1)
  }

  /**
   * A sacrifice is turned away when the leader already has `maxSlots`
   * filled slots and the sacrifice's slot is an empty one.
   */
  predicate SlotRefused(occupancy: seq<Byte>, maxSlots: Byte, slot: nat)
    requires slot < |occupancy|
  {
    FilledSlots(occupancy) >= maxSlots && occupancy[slot] == 0
  }

  /**
   * The leader's spec bytes after the sacrifices, one after the other: each
   * one that is not turned away writes its spec byte 1 into its slot. The
   * occupancy is the leader's before the forge, for every sacrifice.
   */
  function EquippedSpecBytes(specBytes: seq<Byte>, occupancy: seq<Byte>, maxSlots: Byte,
                             sacrifices: seq<ForgeItem>): (r: seq<Byte>)
    requires |specBytes| == 16 && |occupancy| == 16 && AllHaveV2Layout(sacrifices)
    ensures |r| == 16
  {
    if |sacrifices| == 0 then specBytes
    else
      var before := EquippedSpecBytes(specBytes, occupancy, maxSlots, sacrifices[..|sacrifices| - 1]);
      var sacrifice := sacrifices[|sacrifices| - 1].avatar;
      if SlotRefused(occupancy, maxSlots, SlotOf(sacrifice)) then before
      else before[SlotOf(sacrifice) := ReadSpecByte(sacrifice, 1)]
  }

  /** The position of the last sacrifice that goes to `slot`, if any. */
  function LastOnSlot(sacrifices: seq<ForgeItem>, slot: nat): (r: Option<nat>)
    requires AllHaveV2Layout(sacrifices)
    ensures r.Some? ==> r.value < |sacrifices| && SlotOf(sacrifices[r.value].avatar) == slot
    ensures r.Some? ==> forall j | r.value < j < |sacrifices| :: SlotOf(sacrifices[j].avatar) != slot
    ensures r.Nothing? ==> forall j | 0 <= j < |sacrifices| :: SlotOf(sacrifices[j].avatar) != slot
  {
    if |sacrifices| == 0 then Nothing
    else if SlotOf(sacrifices[|sacrifices| - 1].avatar) == slot then Some(|sacrifices| - 1)
    else LastOnSlot(sacrifices[..|sacrifices| - 1], slot)
  }

  /**
   * What each slot holds after the equip loop: its own byte when no
   * sacrifice goes to it or when it is turned away, and otherwise the spec
   * byte 1 of the last sacrifice that goes to it.
   */
  lemma {:induction false} EquippedSlot(specBytes: seq<Byte>, occupancy: seq<Byte>, maxSlots: Byte,
                                        sacrifices: seq<ForgeItem>, slot: nat)
    requires |specBytes| == 16 && |occupancy| == 16 && AllHaveV2Layout(sacrifices) && slot < 16
    ensures var r := EquippedSpecBytes(specBytes, occupancy, maxSlots, sacrifices);
            match LastOnSlot(sacrifices, slot)
            case Nothing => r[slot] == specBytes[slot]
            case Some(k) => r[slot] == if SlotRefused(occupancy, maxSlots, slot) then specBytes[slot]
                                       else ReadSpecByte(sacrifices[k].avatar, 1)
  {
    if |sacrifices| > 0 {
      var front := sacrifices[..|sacrifices| - 1];
      assert AllHaveV2Layout(front) by {
        forall i | 0 <= i < |front| ensures HasV2Layout(front[i].avatar) {
          assert front[i] == sacrifices[i];
        }
      }
      EquippedSlot(specBytes, occupancy, maxSlots, front, slot);
    }
  }

  /**
   * The equip loop: the souls of the sacrifices are added up with
   * wrap-around and each sacrifice not turned away overwrites the spec
   * byte of its slot.
   */
  method EquipSlots(leader: Avatar, sacrifices: seq<ForgeItem>, maxSlots: Byte)
    returns (specBytes: seq<Byte>, newSouls: U32)
    requires HasV2Layout(leader) && AllHaveV2Layout(sacrifices)
    ensures specBytes == EquippedSpecBytes(ReadFullSpecBytes(leader), Occupancy(ReadFullSpecBytes(leader)),
                                           maxSlots, sacrifices)
    ensures newSouls == WrappingSoulSum(sacrifices)
  {
    newSouls := 0;
    specBytes := ReadFullSpecBytes(leader);
    var equippedSlots := Occupancy(specBytes);
    for k := 0 to |sacrifices|
      invariant |specBytes| == 16
      invariant specBytes == EquippedSpecBytes(ReadFullSpecBytes(leader), equippedSlots, maxSlots, sacrifices[..k])
      invariant newSouls == WrappingSoulSum(sacrifices[..k])
    {
      var sacrifice := sacrifices[k].avatar;
      assert sacrifices[..k + 1][..k] == sacrifices[..k];
      assert HasV2Layout(sacrifice);
      newSouls := WrapAddU32(newSouls, sacrifice.souls);
      var slotType := SlotOf(sacrifice);
      var filledSlots := FilledSlots(equippedSlots);
      var slotEmpty := equippedSlots[slotType] == 0;
      if filledSlots >= maxSlots && slotEmpty {
        continue;
      }
      specBytes := specBytes[slotType := ReadSpecByte(sacrifice, 1)];
    }
    assert sacrifices[..|sacrifices|] == sacrifices;
  }

  /**
   * `equip_avatars`. Writing the sixteen spec bytes back copies them into
   * the eleven-byte slice `dna[5..16]`, whose length does not match, so the
   * forge always panics after the loop and the leader keeps its DNA and souls.
   */
  method EquipAvatars(leader: ForgeItem, sacrifices: seq<ForgeItem>, maxSlots: Byte) returns (r: ForgeResult)
    requires HasV2Layout(leader.avatar) && AllHaveV2Layout(sacrifices)
    ensures r == Err(SliceLengthMismatch)
  {
    var specBytes, newSouls := EquipSlots(leader.avatar, sacrifices, maxSlots);
    var written := WriteFullSpecBytes(leader.avatar, specBytes);
    var upgraded: Byte := 0;
    match written {
      case Err(e) =>
        r := Err(e);
      case Ok(equipped) =>
        var souled := equipped.(souls := WrapAddU32(equipped.souls, newSouls));
        r := Ok((LeaderForged(ForgeItem(leader.id, souled), upgraded), ConsumedAll(sacrifices)));
    }
  }

  // ----- mate, special and the dispatch -----

  /** `mate_avatars` and `special_avatars`: each body is `todo!()`. */
  function MateAvatars(leader: ForgeItem, sacrifices: seq<ForgeItem>): (r: ForgeResult)
    ensures r.Err? && IsPanic(r.error)
  {
    Err(Unimplemented)
  }

  function SpecialAvatars(leader: ForgeItem, sacrifices: seq<ForgeItem>): (r: ForgeResult)
    ensures r.Err? && IsPanic(r.error)
  {
    Err(Unimplemented)
  }

  lemma V2LayoutHasAttributes(items: seq<ForgeItem>)
    requires AllHaveV2Layout(items)
    ensures AllHaveAttributes(items)
  {
    forall i | 0 <= i < |items| ensures |items[i].avatar.dna| >= ATTRIBUTE_BYTES {
      assert HasV2Layout(items[i].avatar);
    }
  }

  /**
   * `combine_avatars_in`: each forge type goes to its own combinator, and
   * `None` is refused as invalid forge components, the only failure that is
   * not a panic.
   */
  method CombineAvatarsIn(forgeType: ForgeType, leader: ForgeItem, sacrifices: seq<ForgeItem>, seasonId: SeasonId,
                          variations: Variations, probabilityMatch: Byte -> Byte, maxSlots: Byte,
                          provider: HashProvider)
    returns (r: ForgeResult)
    requires provider.Valid() && HasV2Layout(leader.avatar) && AllHaveV2Layout(sacrifices)
    modifies provider
    ensures provider.Valid()
    ensures r.Err? ==> (IsPanic(r.error) <==> forgeType != ForgeType.None)
    ensures forgeType == ForgeType.None <==> r == Err(InvalidForgeComponents)
    ensures forgeType in {ForgeType.Equip, ForgeType.Mate, ForgeType.Special} ==> r.Err?
    ensures forgeType == ForgeType.Stack ==> r.Ok?
  {
    V2LayoutHasAttributes(sacrifices);
    match forgeType {
      case Equip => r := EquipAvatars(leader, sacrifices, maxSlots);
      case Mate => r := MateAvatars(leader, sacrifices);
      case Special => r := SpecialAvatars(leader, sacrifices);
      case None => r := Err(InvalidForgeComponents);
      case _ => r := CombineWithHash(forgeType, leader, sacrifices, seasonId, variations, probabilityMatch, provider);
    }
  }

  /** The forge types of `combine_avatars_in` that draw from the hash provider. */
  method CombineWithHash(forgeType: ForgeType, leader: ForgeItem, sacrifices: seq<ForgeItem>, seasonId: SeasonId,
                         variations: Variations, probabilityMatch: Byte -> Byte, provider: HashProvider)
    returns (r: ForgeResult)
    requires forgeType in {ForgeType.Stack, ForgeType.Tinker, ForgeType.Build, ForgeType.Assemble, ForgeType.Breed}
    requires provider.Valid() && HasV2Layout(leader.avatar) && AllHaveV2Layout(sacrifices)
    modifies provider
    ensures provider.Valid()
    ensures r.Err? ==> IsPanic(r.error)
    ensures forgeType == ForgeType.Stack ==> r.Ok?
  {
    V2LayoutHasAttributes(sacrifices);
    if forgeType == ForgeType.Stack {
      r := StackAvatars(leader, sacrifices, seasonId, provider);
    } else if forgeType == ForgeType.Tinker {
      r := TinkerAvatars(leader, sacrifices, seasonId, provider);
    } else if forgeType == ForgeType.Build {
      r := BuildAvatars(leader, sacrifices, seasonId, provider);
    } else if forgeType == ForgeType.Assemble {
      r := AssembleAvatars(leader, sacrifices, variations, probabilityMatch, provider);
    } else {
      r := BreedAvatars(leader, sacrifices, variations, probabilityMatch, provider);
    }
  }

  /**
   * `forge_with` of `AvatarForgerV2`: `can_be_forged` decides the forge
   * type, refusing sacrifices of another version and components that make
   * no forge, and `combine_avatars_in` carries it out with the forge's hash
   * provider. So the only failures that are not panics are those two
   * refusals, and a stack always succeeds.
   */
  method ForgeWith(leader: ForgeItem, sacrifices: seq<ForgeItem>, seasonId: SeasonId,
                   variations: Variations, probabilityMatch: Byte -> Byte, maxSlots: Byte,
                   provider: HashProvider)
    returns (r: ForgeResult)
    requires provider.Valid() && HasV2Layout(leader.avatar) && AllHaveV2Layout(sacrifices)
    modifies provider
    ensures provider.Valid()
    ensures r == Err(IncompatibleAvatarVersions) <==>
            exists i | 0 <= i < |sacrifices| :: sacrifices[i].avatar.version != leader.avatar.version
    ensures r == Err(InvalidForgeComponents) <==>
            (forall i | 0 <= i < |sacrifices| :: sacrifices[i].avatar.version == leader.avatar.version) &&
            ToolsForger.DetermineForgeType(leader.avatar, ToolsForger.AvatarsOf(sacrifices)) == ForgeType.None
    ensures r.Err? && !IsPanic(r.error) ==> r.error in {IncompatibleAvatarVersions, InvalidForgeComponents}
    ensures (forall i | 0 <= i < |sacrifices| :: sacrifices[i].avatar.version == leader.avatar.version) &&
            ToolsForger.DetermineForgeType(leader.avatar, ToolsForger.AvatarsOf(sacrifices)) == ForgeType.Stack
            ==> r.Ok?
  {
    var forgeable := ToolsForger.CanBeForged(leader, sacrifices);
    if forgeable.Err? {
      return Err(forgeable.error);
    }
    r := CombineAvatarsIn(forgeable.value, leader, sacrifices, seasonId, variations, probabilityMatch, maxSlots, provider);
  }
}
