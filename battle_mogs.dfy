/**
 * The mogwai registry of the battle-mogs pallet (pallets/battle-mogs/src/lib.rs).
 *
 * Every live mogwai has an owner and sits in two enumerations kept by
 * index maps: the array of all mogwais (`AllMogwaisArray`, `AllMogwaisCount`,
 * `AllMogwaisIndex`) and, per account, the array of the mogwais it owns
 * (`OwnedMogwaisArray`, `OwnedMogwaisCount`, `OwnedMogwaisIndex`). Minting
 * appends at the count; removing and transferring "swap and pop": the last
 * entry moves into the freed position and the tail entry goes.
 *
 * The storage items form one record, held by a class whose methods
 * rewrite it item by item in the order of the source's writes. Counts are
 * `u64` and every
 * `checked_add`/`checked_sub` on them is an explicit overflow error.
 * Hashes and account identifiers are numbers; the zero hash is what a
 * `ValueQuery` map yields for a missing key.
 */
module BattleMogs {
  import opened Bits

  type AccountId = nat
  type MogwaiId = nat

  /** The default `T::Hash`, returned by a `ValueQuery` read of a missing key. */
  const ZERO_ID: MogwaiId := 0

  const U64_MAX: nat := 0xFFFF_FFFF_FFFF_FFFF

  /** The fields of `MogwaiStruct` the registry reads: price, generation and rarity code. */
  datatype Mogwai = Mogwai(price: nat, gen: U32, rarity: Byte)

  datatype MogsError =
    | MogwaiAlreadyExists
    | MogwaiDoesntExists
    | MogwaiNotOwned
    | MogwaiSame
    | MogwaiHasNoBios
    | MaxMogwaisInAccount
    | Overflow            // a `checked_add` or `checked_sub` on a count
    | NoOwner             // "No owner for this mogwai"
    | NotOwner            // "You don't own this mogwai"
    | AlreadyOwner        // "You already own this mogwai"
    | NoPrice
    | PriceAboveMax
    | RarityTooLow        // "Sacrifice into is only available for normal and higher rarity!"
    | PaymentFailed       // the currency transfer to the owner failed
    | TransferPanicked    // the `expect` on the result of `transfer_from`

  datatype DispatchResult = Ok | Err(error: MogsError)

  // ----- breed type -----

  datatype BreedType = DomDom | DomRez | RezDom | RezRez

  /** `calculate_breedtype`: the block number modulo 80, in four bands of twenty blocks. */
  function CalculateBreedType(blockNumber: nat): BreedType
  {
    var modulo80 := blockNumber % 80;
    if modulo80 < 20 then DomDom
    else if modulo80 < 40 then DomRez
    else if modulo80 < 60 then RezDom
    else RezRez
  }

  /** The four breed types in the order the bands come. */
  const BREED_CYCLE: seq<BreedType> := [DomDom, DomRez, RezDom, RezRez]

  /**
   * The breed type cycles through the four types every 80 blocks, holding
   * each one for twenty consecutive blocks.
   */
  lemma BreedTypeCycles(blockNumber: nat)
    ensures CalculateBreedType(blockNumber) == BREED_CYCLE[(blockNumber % 80) / 20]
    ensures CalculateBreedType(blockNumber + 80) == CalculateBreedType(blockNumber)
  {
    assert (blockNumber + 80) % 80 == blockNumber % 80;
  }

  // ----- the enumerations, as values -----

  /** A `ValueQuery` read of `AllMogwaisArray`: a missing position reads as the zero hash. */
  function At(entries: map<nat, MogwaiId>, i: nat): MogwaiId
  {
    if i in entries then entries[i] else ZERO_ID
  }

  /** A `ValueQuery` read of `OwnedMogwaisArray`. */
  function OwnedAt(entries: map<(AccountId, nat), MogwaiId>, account: AccountId, i: nat): MogwaiId
  {
    if (account, i) in entries then entries[(account, i)] else ZERO_ID
  }

  /** A `ValueQuery` read of `AllMogwaisIndex` or `OwnedMogwaisIndex`: a missing id reads as 0. */
  function IndexAt(index: map<MogwaiId, nat>, id: MogwaiId): nat
  {
    if id in index then index[id] else 0
  }

  /** The first `count` entries of an array map keyed by position. */
  function Listing(entries: map<nat, MogwaiId>, count: nat): (r: seq<MogwaiId>)
    ensures |r| == count
    ensures forall i | 0 <= i < count :: r[i] == At(entries, i)
  {
    seq(count, i requires 0 <= i < count => At(entries, i))
  }

  /** `OwnedMogwaisArray` of one account, read at `0 .. count`. */
  function OwnedListing(entries: map<(AccountId, nat), MogwaiId>, account: AccountId, count: nat): (r: seq<MogwaiId>)
    ensures |r| == count
    ensures forall i | 0 <= i < count :: r[i] == OwnedAt(entries, account, i)
  {
    seq(count, i requires 0 <= i < count => OwnedAt(entries, account, i))
  }

  /** A `ValueQuery` read of `OwnedMogwaisCount`. */
  function CountOf(counts: map<AccountId, nat>, account: AccountId): nat
  {
    if account in counts then counts[account] else 0
  }

  /**
   * Swap and pop on a sequence: the last element takes the place of the
   * one at `i`, and the sequence is one shorter.
   */
  function SwapPop(s: seq<MogwaiId>, i: nat): (r: seq<MogwaiId>)
    requires i < |s|
    ensures |r| == |s| - 1
  {
    if i == |s| - 1 then s[..i] else s[..|s| - 1][i := s[|s| - 1]]
  }

  /** Swap and pop removes one copy of the element at `i` and keeps every other element. */
  lemma SwapPopRemoves(s: seq<MogwaiId>, i: nat)
    requires i < |s|
    ensures multiset(SwapPop(s, i)) == multiset(s) - multiset{s[i]}
  {
    var n := |s| - 1;
    assert s == s[..n] + [s[n]];
    if i < n {
      assert s[..n] == s[..i] + [s[i]] + s[i + 1..n];
      assert SwapPop(s, i) == s[..i] + [s[n]] + s[i + 1..n];
    }
  }

  /**
   * `AllMogwaisArray` below the count and `AllMogwaisIndex` are inverse
   * bijections between the positions `0 .. count` and the live ids.
   */
  ghost predicate AllIndexed(entries: map<nat, MogwaiId>, count: nat, index: map<MogwaiId, nat>, live: set<MogwaiId>)
  {
    (forall i | i in entries :: i < count)
    && (forall i | 0 <= i < count :: i in entries && entries[i] in live && entries[i] in index && index[entries[i]] == i)
    && (forall id | id in index :: id in live)
    && (forall id | id in live :: id in index && index[id] < count && index[id] in entries && entries[index[id]] == id)
  }

  /**
   * The same for every account: `OwnedMogwaisArray` below the account's
   * count lists exactly the mogwais the account owns, each once, at the
   * position `OwnedMogwaisIndex` gives.
   */
  ghost predicate OwnedIndexed(entries: map<(AccountId, nat), MogwaiId>, counts: map<AccountId, nat>,
                               index: map<MogwaiId, nat>, owner: map<MogwaiId, AccountId>)
  {
    (forall p | p in entries :: p.1 < CountOf(counts, p.0))
    && OwnedListed(entries, counts, index, owner)
    && (forall id | id in index :: id in owner)
    && OwnedPlaced(entries, counts, index, owner)
  }

  /** Each position below an account's count holds a mogwai of that account, indexed back to the position. */
  ghost predicate OwnedListed(entries: map<(AccountId, nat), MogwaiId>, counts: map<AccountId, nat>,
                              index: map<MogwaiId, nat>, owner: map<MogwaiId, AccountId>)
  {
    forall a: AccountId, i: nat | 0 <= i < CountOf(counts, a) ::
      (a, i) in entries && entries[(a, i)] in owner && owner[entries[(a, i)]] == a
      && entries[(a, i)] in index && index[entries[(a, i)]] == i
  }

  /** Each owned mogwai sits in its owner's array at the position its index gives. */
  ghost predicate OwnedPlaced(entries: map<(AccountId, nat), MogwaiId>, counts: map<AccountId, nat>,
                              index: map<MogwaiId, nat>, owner: map<MogwaiId, AccountId>)
  {
    forall id | id in owner ::
      id in index && index[id] < CountOf(counts, owner[id])
      && (owner[id], index[id]) in entries && entries[(owner[id], index[id])] == id
  }

  /** The enumeration lists every live id exactly once. */
  lemma AllListedOnce(entries: map<nat, MogwaiId>, count: nat, index: map<MogwaiId, nat>, live: set<MogwaiId>)
    requires AllIndexed(entries, count, index, live)
    ensures forall id :: id in live <==> id in Listing(entries, count)
    ensures forall i, j | 0 <= i < j < count :: Listing(entries, count)[i] != Listing(entries, count)[j]
  {
    var s := Listing(entries, count);
    forall id | id in live ensures id in s {
      assert s[index[id]] == id;
    }
  }

  /** An owner's listing holds exactly the mogwais it owns, each once. */
  lemma OwnedListedOnce(entries: map<(AccountId, nat), MogwaiId>, counts: map<AccountId, nat>,
                        index: map<MogwaiId, nat>, owner: map<MogwaiId, AccountId>, account: AccountId)
    requires OwnedIndexed(entries, counts, index, owner)
    ensures forall id :: (id in owner && owner[id] == account) <==>
                         id in OwnedListing(entries, account, CountOf(counts, account))
    ensures var s := OwnedListing(entries, account, CountOf(counts, account));
            forall i, j | 0 <= i < j < |s| :: s[i] != s[j]
  {
    var s := OwnedListing(entries, account, CountOf(counts, account));
    forall id | id in owner && owner[id] == account ensures id in s {
      assert s[index[id]] == id;
    }
  }

  /** Minting appends at the count and keeps the enumeration of all mogwais. */
  lemma AllPush(entries: map<nat, MogwaiId>, count: nat, index: map<MogwaiId, nat>, live: set<MogwaiId>, id: MogwaiId)
    requires AllIndexed(entries, count, index, live) && id !in live
    ensures AllIndexed(entries[count := id], count + 1, index[id := count], live + {id})
    ensures Listing(entries[count := id], count + 1) == Listing(entries, count) + [id]
  {
    assert count !in entries;
  }

  /**
   * `AllMogwaisArray` after the swap and pop of position `pos` among `count`
   * entries: the last entry moves to `pos` unless `pos` is the last, and the
   * tail key goes.
   */
  function AllPoppedEntries(entries: map<nat, MogwaiId>, count: nat, pos: nat): map<nat, MogwaiId>
    requires count > 0
  {
    var n := count - 1;
    (if pos != n then entries[pos := At(entries, n)] else entries) - {n}
  }

  /** `AllMogwaisIndex` after the same swap and pop that removes `id`. */
  function AllPoppedIndex(entries: map<nat, MogwaiId>, count: nat, index: map<MogwaiId, nat>, pos: nat,
                          id: MogwaiId): map<MogwaiId, nat>
    requires count > 0
  {
    var n := count - 1;
    (if pos != n then index[At(entries, n) := pos] else index) - {id}
  }

  /** Removal by swap and pop keeps the enumeration of all mogwais. */
  lemma AllSwapPop(entries: map<nat, MogwaiId>, count: nat, index: map<MogwaiId, nat>, live: set<MogwaiId>,
                   id: MogwaiId)
    requires AllIndexed(entries, count, index, live) && id in live
    ensures count > 0 && index[id] < count && count - 1 in entries
    ensures AllIndexed(AllPoppedEntries(entries, count, index[id]), count - 1,
                       AllPoppedIndex(entries, count, index, index[id], id), live - {id})
  {
    var n := count - 1;
    var pos := index[id];
    var last := entries[n];
    var entries' := AllPoppedEntries(entries, count, pos);
    var index' := AllPoppedIndex(entries, count, index, pos, id);
    forall i | 0 <= i < n
      ensures i in entries' && entries'[i] in live - {id} && entries'[i] in index' && index'[entries'[i]] == i
    {
      if i != pos {
        assert entries'[i] == entries[i] && entries[i] != id && entries[i] != last;
      }
    }
  }

  /** On the listing, the same removal is a swap and pop at the removed id's position. */
  lemma AllSwapPopListing(entries: map<nat, MogwaiId>, count: nat, pos: nat)
    requires pos < count && forall i | 0 <= i < count :: i in entries
    ensures Listing(AllPoppedEntries(entries, count, pos), count - 1) == SwapPop(Listing(entries, count), pos)
  {
  }

  /** `OwnedMogwaisArray` after the swap and pop of position `pos` of `account`'s `count` entries. */
  function OwnedPoppedEntries(entries: map<(AccountId, nat), MogwaiId>, account: AccountId, count: nat, pos: nat)
    : map<(AccountId, nat), MogwaiId>
    requires count > 0
  {
    var n := count - 1;
    (if pos != n then entries[(account, pos) := OwnedAt(entries, account, n)] else entries) - {(account, n)}
  }

  /** `OwnedMogwaisIndex` after the same swap and pop that removes `id`. */
  function OwnedPoppedIndex(entries: map<(AccountId, nat), MogwaiId>, account: AccountId, count: nat,
                            index: map<MogwaiId, nat>, pos: nat, id: MogwaiId): map<MogwaiId, nat>
    requires count > 0
  {
    var n := count - 1;
    (if pos != n then index[OwnedAt(entries, account, n) := pos] else index) - {id}
  }

  /** Appending to the owner's array keeps every account's enumeration. */
  lemma OwnedPush(entries: map<(AccountId, nat), MogwaiId>, counts: map<AccountId, nat>,
                  index: map<MogwaiId, nat>, owner: map<MogwaiId, AccountId>, to: AccountId, id: MogwaiId)
    requires OwnedIndexed(entries, counts, index, owner) && id !in owner
    ensures OwnedIndexed(entries[(to, CountOf(counts, to)) := id], counts[to := CountOf(counts, to) + 1],
                         index[id := CountOf(counts, to)], owner[id := to])
  {
    var c := CountOf(counts, to);
    assert (to, c) !in entries;
  }

  /** Removing by swap and pop from the owner's array keeps every account's enumeration. */
  lemma OwnedSwapPop(entries: map<(AccountId, nat), MogwaiId>, counts: map<AccountId, nat>,
      index: map<MogwaiId, nat>, owner: map<MogwaiId, AccountId>, a: AccountId, id: MogwaiId)
    requires OwnedIndexed(entries, counts, index, owner) && id in owner && owner[id] == a
    ensures CountOf(counts, a) > 0 && index[id] < CountOf(counts, a) && (a, CountOf(counts, a) - 1) in entries
    ensures OwnedIndexed(OwnedPoppedEntries(entries, a, CountOf(counts, a), index[id]), counts[a := CountOf(counts, a) - 1],
                         OwnedPoppedIndex(entries, a, CountOf(counts, a), index, index[id], id), owner - {id})
  {
    OwnedSwapPopListed(entries, counts, index, owner, a, id);
    OwnedSwapPopPlaced(entries, counts, index, owner, a, id);
  }

  lemma OwnedSwapPopListed(entries: map<(AccountId, nat), MogwaiId>, counts: map<AccountId, nat>,
      index: map<MogwaiId, nat>, owner: map<MogwaiId, AccountId>, a: AccountId, id: MogwaiId)
    requires OwnedIndexed(entries, counts, index, owner) && id in owner && owner[id] == a
    ensures CountOf(counts, a) > 0 && index[id] < CountOf(counts, a) && (a, CountOf(counts, a) - 1) in entries
    ensures OwnedListed(OwnedPoppedEntries(entries, a, CountOf(counts, a), index[id]), counts[a := CountOf(counts, a) - 1],
                        OwnedPoppedIndex(entries, a, CountOf(counts, a), index, index[id], id), owner - {id})
  {
    var c := CountOf(counts, a);
    var n := c - 1;
    var pos := index[id];
    var last := entries[(a, n)];
    var entries' := OwnedPoppedEntries(entries, a, c, pos);
    var counts' := counts[a := n];
    var index' := OwnedPoppedIndex(entries, a, c, index, pos, id);
    var owner' := owner - {id};
    forall b: AccountId, i: nat | 0 <= i < CountOf(counts', b)
      ensures (b, i) in entries' && entries'[(b, i)] in owner' && owner'[entries'[(b, i)]] == b
              && entries'[(b, i)] in index' && index'[entries'[(b, i)]] == i
    {
      if b != a || i != pos {
        assert entries'[(b, i)] == entries[(b, i)];
        assert entries[(b, i)] != id && entries[(b, i)] != last;
      }
    }
  }

  lemma OwnedSwapPopPlaced(entries: map<(AccountId, nat), MogwaiId>, counts: map<AccountId, nat>,
      index: map<MogwaiId, nat>, owner: map<MogwaiId, AccountId>, a: AccountId, id: MogwaiId)
    requires OwnedIndexed(entries, counts, index, owner) && id in owner && owner[id] == a
    ensures CountOf(counts, a) > 0 && index[id] < CountOf(counts, a) && (a, CountOf(counts, a) - 1) in entries
    ensures OwnedPlaced(OwnedPoppedEntries(entries, a, CountOf(counts, a), index[id]), counts[a := CountOf(counts, a) - 1],
                        OwnedPoppedIndex(entries, a, CountOf(counts, a), index, index[id], id), owner - {id})
  {
    var c := CountOf(counts, a);
    var n := c - 1;
    var pos := index[id];
    var last := entries[(a, n)];
    var entries' := OwnedPoppedEntries(entries, a, c, pos);
    var counts' := counts[a := n];
    var index' := OwnedPoppedIndex(entries, a, c, index, pos, id);
    var owner' := owner - {id};
    forall x | x in owner'
      ensures x in index' && index'[x] < CountOf(counts', owner'[x])
              && (owner'[x], index'[x]) in entries' && entries'[(owner'[x], index'[x])] == x
    {
      if x != last {
        assert index'[x] == index[x];
        assert (owner[x], index[x]) != (a, n);
      }
    }
  }

  /** On the owner's listing, the removal is a swap and pop; every other account's listing is kept. */
  lemma OwnedSwapPopListing(entries: map<(AccountId, nat), MogwaiId>, account: AccountId, count: nat, pos: nat)
    requires pos < count && forall i | 0 <= i < count :: (account, i) in entries
    ensures OwnedListing(OwnedPoppedEntries(entries, account, count, pos), account, count - 1)
            == SwapPop(OwnedListing(entries, account, count), pos)
    ensures forall b, k | b != account ::
              OwnedListing(OwnedPoppedEntries(entries, account, count, pos), b, k) == OwnedListing(entries, b, k)
  {
    var popped := OwnedPoppedEntries(entries, account, count, pos);
    forall b, k | b != account ensures OwnedListing(popped, b, k) == OwnedListing(entries, b, k) {
      assert forall i | 0 <= i < k :: ((b, i) in popped <==> (b, i) in entries);
    }
  }

  /** Appending to one account's array leaves every other account's listing as it was. */
  lemma OwnedPushListing(entries: map<(AccountId, nat), MogwaiId>, account: AccountId, count: nat, id: MogwaiId)
    requires forall i | 0 <= i < count :: (account, i) in entries
    ensures OwnedListing(entries[(account, count) := id], account, count + 1) == OwnedListing(entries, account, count) + [id]
    ensures forall b, k | b != account :: OwnedListing(entries[(account, count) := id], b, k) == OwnedListing(entries, b, k)
  {
  }

  // ----- generations -----

  /**
   * The new generation of a mogwai sacrificed into: the `u32` sum wraps
   * around, and it is taken only when the jump is positive and the sum is
   * at most 16.
   */
  function SacrificedGen(gen: U32, genJump: U32): (r: U32)
    ensures r == gen || r <= 16
    ensures genJump == 0 ==> r == gen
    ensures 0 < genJump && gen + genJump <= 16 ==> r == gen + genJump
  {
    var jumped := WrapAddU32(gen, genJump);
    if genJump > 0 && jumped <= 16 then jumped else gen
  }

  // ----- the storage -----

  /**
   * The pallet's storage items: `Mogwais`, the intrinsic balance of
   * `MogwaisBios`, `MogwaiOwner`, and the two enumerations.
   */
  datatype Storage = Storage(
    mogwais: map<MogwaiId, Mogwai>,
    bios: map<MogwaiId, nat>,
    owner: map<MogwaiId, AccountId>,
    allArray: map<nat, MogwaiId>,
    allCount: nat,
    allIndex: map<MogwaiId, nat>,
    ownedArray: map<(AccountId, nat), MogwaiId>,
    ownedCount: map<AccountId, nat>,
    ownedIndex: map<MogwaiId, nat>)

  /** Both counts fit `u64`. */
  ghost predicate CountsFit(s: Storage)
  {
    s.allCount <= U64_MAX && forall a | a in s.ownedCount :: s.ownedCount[a] <= U64_MAX
  }

  /** Every mogwai with an owner has a record, and only those; bios only for them. */
  ghost predicate RecordsMatch(s: Storage)
  {
    s.mogwais.Keys == s.owner.Keys && s.bios.Keys <= s.owner.Keys
  }

  ghost predicate AllValid(s: Storage)
  {
    AllIndexed(s.allArray, s.allCount, s.allIndex, s.owner.Keys)
  }

  ghost predicate OwnedValid(s: Storage)
  {
    OwnedIndexed(s.ownedArray, s.ownedCount, s.ownedIndex, s.owner)
  }

  /** The storage invariant: both enumerations index exactly the live mogwais. */
  ghost predicate StorageValid(s: Storage)
  {
    CountsFit(s) && RecordsMatch(s) && AllValid(s) && OwnedValid(s)
  }

  /** `all_mogwais_array` read in order. */
  ghost function AllIds(s: Storage): seq<MogwaiId>
  {
    Listing(s.allArray, s.allCount)
  }

  /** `owned_mogwais_array` of one account read in order. */
  ghost function OwnedIds(s: Storage, account: AccountId): seq<MogwaiId>
  {
    OwnedListing(s.ownedArray, account, CountOf(s.ownedCount, account))
  }

  /** In valid storage, the enumerations list the live mogwais and each account's mogwais, each once. */
  lemma ValidStorageListsOnce(s: Storage, account: AccountId)
    requires StorageValid(s)
    ensures forall id :: id in s.owner <==> id in AllIds(s)
    ensures forall id :: (id in s.owner && s.owner[id] == account) <==> id in OwnedIds(s, account)
    ensures forall i, j | 0 <= i < j < |AllIds(s)| :: AllIds(s)[i] != AllIds(s)[j]
    ensures forall i, j | 0 <= i < j < |OwnedIds(s, account)| :: OwnedIds(s, account)[i] != OwnedIds(s, account)[j]
  {
    AllListedOnce(s.allArray, s.allCount, s.allIndex, s.owner.Keys);
    OwnedListedOnce(s.ownedArray, s.ownedCount, s.ownedIndex, s.owner, account);
  }

  // ----- mint -----

  /** The storage after `mint` of `id` for `to`. */
  function Minted(s: Storage, to: AccountId, id: MogwaiId, mogwai: Mogwai): Storage
  {
    Storage(s.mogwais[id := mogwai], s.bios, s.owner[id := to],
            s.allArray[s.allCount := id], s.allCount + 1, s.allIndex[id := s.allCount],
            s.ownedArray[(to, CountOf(s.ownedCount, to)) := id],
            s.ownedCount[to := CountOf(s.ownedCount, to) + 1],
            s.ownedIndex[id := CountOf(s.ownedCount, to)])
  }

  /** Unfolds `Minted` once, so that the lemmas below see its items. */
  lemma MintedItems(s: Storage, to: AccountId, id: MogwaiId, mogwai: Mogwai)
    ensures Minted(s, to, id, mogwai) ==
            Storage(s.mogwais[id := mogwai], s.bios, s.owner[id := to],
                    s.allArray[s.allCount := id], s.allCount + 1, s.allIndex[id := s.allCount],
                    s.ownedArray[(to, CountOf(s.ownedCount, to)) := id],
                    s.ownedCount[to := CountOf(s.ownedCount, to) + 1],
                    s.ownedIndex[id := CountOf(s.ownedCount, to)])
  {
  }

  lemma MintCountsFit(s: Storage, to: AccountId, id: MogwaiId, mogwai: Mogwai)
    requires CountsFit(s) && s.allCount < U64_MAX && CountOf(s.ownedCount, to) < U64_MAX
    ensures CountsFit(Minted(s, to, id, mogwai))
  {
    MintedItems(s, to, id, mogwai);
  }

  lemma MintRecordsMatch(s: Storage, to: AccountId, id: MogwaiId, mogwai: Mogwai)
    requires RecordsMatch(s)
    ensures RecordsMatch(Minted(s, to, id, mogwai))
  {
    MintedItems(s, to, id, mogwai);
  }

  lemma MintAllValid(s: Storage, to: AccountId, id: MogwaiId, mogwai: Mogwai)
    requires AllValid(s) && id !in s.owner
    ensures AllValid(Minted(s, to, id, mogwai))
  {
    MintedItems(s, to, id, mogwai);
    AllPush(s.allArray, s.allCount, s.allIndex, s.owner.Keys, id);
    assert Minted(s, to, id, mogwai).owner.Keys == s.owner.Keys + {id};
  }

  lemma MintOwnedValid(s: Storage, to: AccountId, id: MogwaiId, mogwai: Mogwai)
    requires OwnedValid(s) && id !in s.owner
    ensures OwnedValid(Minted(s, to, id, mogwai))
  {
    MintedItems(s, to, id, mogwai);
    OwnedPush(s.ownedArray, s.ownedCount, s.ownedIndex, s.owner, to, id);
  }

  /** Minting a new id below the count limits keeps the storage valid. */
  lemma MintKeepsValid(s: Storage, to: AccountId, id: MogwaiId, mogwai: Mogwai)
    requires StorageValid(s) && id !in s.owner
    requires s.allCount < U64_MAX && CountOf(s.ownedCount, to) < U64_MAX
    ensures StorageValid(Minted(s, to, id, mogwai))
  {
    MintCountsFit(s, to, id, mogwai);
    MintRecordsMatch(s, to, id, mogwai);
    MintAllValid(s, to, id, mogwai);
    MintOwnedValid(s, to, id, mogwai);
  }

  /** Minting appends the id to the enumeration of all mogwais and to the owner's, and no other. */
  lemma MintAppends(s: Storage, to: AccountId, id: MogwaiId, mogwai: Mogwai)
    ensures AllIds(Minted(s, to, id, mogwai)) == AllIds(s) + [id]
    ensures OwnedIds(Minted(s, to, id, mogwai), to) == OwnedIds(s, to) + [id]
    ensures forall a | a != to :: OwnedIds(Minted(s, to, id, mogwai), a) == OwnedIds(s, a)
  {
    MintedItems(s, to, id, mogwai);
    var s' := Minted(s, to, id, mogwai);
    assert AllIds(s') == AllIds(s) + [id];
    forall a | a != to ensures OwnedIds(s', a) == OwnedIds(s, a) {
      assert CountOf(s'.ownedCount, a) == CountOf(s.ownedCount, a);
    }
  }

  // ----- remove -----

  /**
   * The storage after `remove` of `id` by `from`: the records go, and both
   * enumerations swap and pop at the positions the index maps give. The
   * owned enumeration popped is `from`'s, whoever owns the mogwai.
   */
  function Removed(s: Storage, from: AccountId, id: MogwaiId): Storage
    requires s.allCount > 0 && CountOf(s.ownedCount, from) > 0
  {
    var c := CountOf(s.ownedCount, from);
    Storage(s.mogwais - {id}, s.bios - {id}, s.owner - {id},
            AllPoppedEntries(s.allArray, s.allCount, IndexAt(s.allIndex, id)), s.allCount - 1,
            AllPoppedIndex(s.allArray, s.allCount, s.allIndex, IndexAt(s.allIndex, id), id),
            OwnedPoppedEntries(s.ownedArray, from, c, IndexAt(s.ownedIndex, id)),
            s.ownedCount[from := c - 1],
            OwnedPoppedIndex(s.ownedArray, from, c, s.ownedIndex, IndexAt(s.ownedIndex, id), id))
  }

  /** Unfolds `Removed` once. */
  lemma RemovedItems(s: Storage, from: AccountId, id: MogwaiId)
    requires s.allCount > 0 && CountOf(s.ownedCount, from) > 0
    ensures Removed(s, from, id) ==
            Storage(s.mogwais - {id}, s.bios - {id}, s.owner - {id},
                    AllPoppedEntries(s.allArray, s.allCount, IndexAt(s.allIndex, id)), s.allCount - 1,
                    AllPoppedIndex(s.allArray, s.allCount, s.allIndex, IndexAt(s.allIndex, id), id),
                    OwnedPoppedEntries(s.ownedArray, from, CountOf(s.ownedCount, from), IndexAt(s.ownedIndex, id)),
                    s.ownedCount[from := CountOf(s.ownedCount, from) - 1],
                    OwnedPoppedIndex(s.ownedArray, from, CountOf(s.ownedCount, from), s.ownedIndex,
                                     IndexAt(s.ownedIndex, id), id))
  {
  }

  lemma RemoveCountsFit(s: Storage, from: AccountId, id: MogwaiId)
    requires CountsFit(s) && s.allCount > 0 && CountOf(s.ownedCount, from) > 0
    ensures CountsFit(Removed(s, from, id))
  {
    RemovedItems(s, from, id);
  }

  lemma RemoveRecordsMatch(s: Storage, from: AccountId, id: MogwaiId)
    requires RecordsMatch(s) && s.allCount > 0 && CountOf(s.ownedCount, from) > 0
    ensures RecordsMatch(Removed(s, from, id))
  {
    RemovedItems(s, from, id);
  }

  /** The enumeration of all mogwais survives a removal by any caller. */
  lemma RemoveAllValid(s: Storage, from: AccountId, id: MogwaiId)
    requires AllValid(s) && id in s.owner && s.allCount > 0 && CountOf(s.ownedCount, from) > 0
    ensures AllValid(Removed(s, from, id))
  {
    RemovedItems(s, from, id);
    AllSwapPop(s.allArray, s.allCount, s.allIndex, s.owner.Keys, id);
    assert IndexAt(s.allIndex, id) == s.allIndex[id];
    assert (s.owner - {id}).Keys == s.owner.Keys - {id};
  }

  /** The owned enumerations survive a removal by the owner. */
  lemma RemoveOwnedValid(s: Storage, from: AccountId, id: MogwaiId)
    requires OwnedValid(s) && id in s.owner && s.owner[id] == from && s.allCount > 0
    ensures CountOf(s.ownedCount, from) > 0
    ensures OwnedValid(Removed(s, from, id))
  {
    OwnedSwapPop(s.ownedArray, s.ownedCount, s.ownedIndex, s.owner, from, id);
    RemovedItems(s, from, id);
    assert IndexAt(s.ownedIndex, id) == s.ownedIndex[id];
  }

  /** Removing a live mogwai by its owner keeps the storage valid. */
  lemma RemoveKeepsValid(s: Storage, from: AccountId, id: MogwaiId)
    requires StorageValid(s) && id in s.owner && s.owner[id] == from
    ensures s.allCount > 0 && CountOf(s.ownedCount, from) > 0
    ensures StorageValid(Removed(s, from, id))
  {
    AllSwapPop(s.allArray, s.allCount, s.allIndex, s.owner.Keys, id);
    RemoveOwnedValid(s, from, id);
    RemoveCountsFit(s, from, id);
    RemoveRecordsMatch(s, from, id);
    RemoveAllValid(s, from, id);
  }

  /**
   * Removing takes the id out of the enumeration of all mogwais by a swap
   * and pop at its position, so exactly one copy of it goes.
   */
  lemma RemoveAllPops(s: Storage, from: AccountId, id: MogwaiId)
    requires AllValid(s) && id in s.owner && CountOf(s.ownedCount, from) > 0
    ensures s.allCount > 0 && IndexAt(s.allIndex, id) < |AllIds(s)| && AllIds(s)[IndexAt(s.allIndex, id)] == id
    ensures AllIds(Removed(s, from, id)) == SwapPop(AllIds(s), IndexAt(s.allIndex, id))
    ensures multiset(AllIds(Removed(s, from, id))) == multiset(AllIds(s)) - multiset{id}
  {
    AllSwapPop(s.allArray, s.allCount, s.allIndex, s.owner.Keys, id);
    RemovedItems(s, from, id);
    var pos := IndexAt(s.allIndex, id);
    AllSwapPopListing(s.allArray, s.allCount, pos);
    SwapPopRemoves(AllIds(s), pos);
  }

  /** The owned listings after a removal, given only that `from`'s array is filled below its count. */
  lemma RemoveListings(s: Storage, from: AccountId, id: MogwaiId)
    requires s.allCount > 0 && CountOf(s.ownedCount, from) > 0 && IndexAt(s.ownedIndex, id) < CountOf(s.ownedCount, from)
    requires forall i | 0 <= i < CountOf(s.ownedCount, from) :: (from, i) in s.ownedArray
    ensures OwnedIds(Removed(s, from, id), from) == SwapPop(OwnedIds(s, from), IndexAt(s.ownedIndex, id))
    ensures forall a | a != from :: OwnedIds(Removed(s, from, id), a) == OwnedIds(s, a)
  {
    RemovedItems(s, from, id);
    var c := CountOf(s.ownedCount, from);
    var pos := IndexAt(s.ownedIndex, id);
    OwnedSwapPopListing(s.ownedArray, from, c, pos);
    var s' := Removed(s, from, id);
    forall a | a != from ensures OwnedIds(s', a) == OwnedIds(s, a) {
      assert CountOf(s'.ownedCount, a) == CountOf(s.ownedCount, a);
    }
  }

  /** Removing by the owner pops the id from the owner's enumeration and leaves every other account's. */
  lemma RemoveOwnedPops(s: Storage, from: AccountId, id: MogwaiId)
    requires OwnedValid(s) && id in s.owner && s.owner[id] == from && s.allCount > 0
    ensures CountOf(s.ownedCount, from) > 0
    ensures IndexAt(s.ownedIndex, id) < |OwnedIds(s, from)| && OwnedIds(s, from)[IndexAt(s.ownedIndex, id)] == id
    ensures OwnedIds(Removed(s, from, id), from) == SwapPop(OwnedIds(s, from), IndexAt(s.ownedIndex, id))
    ensures forall a | a != from :: OwnedIds(Removed(s, from, id), a) == OwnedIds(s, a)
  {
    assert IndexAt(s.ownedIndex, id) == s.ownedIndex[id];
    RemoveListings(s, from, id);
  }

  // ----- transfer -----

  /** Writing a key just removed is writing it. */
  lemma RemoveThenSet<K, V>(m: map<K, V>, k: K, v: V)
    ensures (m - {k})[k := v] == m[k := v]
  {
  }

  /**
   * The storage after `transfer_from` of `id` from `from` to `to`, in the
   * order of the writes: swap and pop on `from`'s array, then the owner,
   * the index and the tail entry of `to`'s array, then both counts.
   */
  function Transferred(s: Storage, from: AccountId, to: AccountId, id: MogwaiId): Storage
    requires CountOf(s.ownedCount, from) > 0
  {
    var n := CountOf(s.ownedCount, from) - 1;
    var cTo := CountOf(s.ownedCount, to);
    var pos := IndexAt(s.ownedIndex, id);
    var last := OwnedAt(s.ownedArray, from, n);
    s.(owner := s.owner[id := to],
       ownedArray := OwnedPoppedEntries(s.ownedArray, from, n + 1, pos)[(to, cTo) := id],
       ownedCount := s.ownedCount[from := n][to := cTo + 1],
       ownedIndex := (if pos != n then s.ownedIndex[last := pos] else s.ownedIndex)[id := cTo])
  }

  /** Unfolds `Transferred` once. */
  lemma TransferredItems(s: Storage, from: AccountId, to: AccountId, id: MogwaiId)
    requires CountOf(s.ownedCount, from) > 0
    ensures Transferred(s, from, to, id) ==
            Storage(s.mogwais, s.bios, s.owner[id := to], s.allArray, s.allCount, s.allIndex,
                    OwnedPoppedEntries(s.ownedArray, from, CountOf(s.ownedCount, from), IndexAt(s.ownedIndex, id))
                      [(to, CountOf(s.ownedCount, to)) := id],
                    s.ownedCount[from := CountOf(s.ownedCount, from) - 1][to := CountOf(s.ownedCount, to) + 1],
                    (if IndexAt(s.ownedIndex, id) != CountOf(s.ownedCount, from) - 1
                     then s.ownedIndex[OwnedAt(s.ownedArray, from, CountOf(s.ownedCount, from) - 1) := IndexAt(s.ownedIndex, id)]
                     else s.ownedIndex)[id := CountOf(s.ownedCount, to)])
  {
  }

  lemma TransferCountsFit(s: Storage, from: AccountId, to: AccountId, id: MogwaiId)
    requires CountsFit(s) && CountOf(s.ownedCount, from) > 0 && CountOf(s.ownedCount, to) < U64_MAX
    ensures CountsFit(Transferred(s, from, to, id))
  {
    TransferredItems(s, from, to, id);
  }

  lemma TransferRecordsMatch(s: Storage, from: AccountId, to: AccountId, id: MogwaiId)
    requires RecordsMatch(s) && id in s.owner && CountOf(s.ownedCount, from) > 0
    ensures RecordsMatch(Transferred(s, from, to, id))
  {
    TransferredItems(s, from, to, id);
    assert s.owner[id := to].Keys == s.owner.Keys;
  }

  lemma TransferAllValid(s: Storage, from: AccountId, to: AccountId, id: MogwaiId)
    requires AllValid(s) && id in s.owner && CountOf(s.ownedCount, from) > 0
    ensures AllValid(Transferred(s, from, to, id))
  {
    TransferredItems(s, from, to, id);
    assert s.owner[id := to].Keys == s.owner.Keys;
  }

  /**
   * Between two different accounts, the owned items after a transfer are
   * those after a swap and pop on the sender followed by an append on the
   * receiver.
   */
  lemma TransferIsPopThenPush(s: Storage, from: AccountId, to: AccountId, id: MogwaiId)
    requires CountOf(s.ownedCount, from) > 0 && id in s.ownedIndex && from != to
    ensures Transferred(s, from, to, id).ownedArray ==
            OwnedPoppedEntries(s.ownedArray, from, CountOf(s.ownedCount, from), s.ownedIndex[id])
              [(to, CountOf(s.ownedCount[from := CountOf(s.ownedCount, from) - 1], to)) := id]
    ensures Transferred(s, from, to, id).ownedCount ==
            s.ownedCount[from := CountOf(s.ownedCount, from) - 1]
              [to := CountOf(s.ownedCount[from := CountOf(s.ownedCount, from) - 1], to) + 1]
    ensures Transferred(s, from, to, id).ownedIndex ==
            OwnedPoppedIndex(s.ownedArray, from, CountOf(s.ownedCount, from), s.ownedIndex, s.ownedIndex[id], id)
              [id := CountOf(s.ownedCount[from := CountOf(s.ownedCount, from) - 1], to)]
    ensures Transferred(s, from, to, id).owner == (s.owner - {id})[id := to]
  {
    TransferredItems(s, from, to, id);
    var c := CountOf(s.ownedCount, from);
    var n := c - 1;
    var pos := s.ownedIndex[id];
    assert CountOf(s.ownedCount[from := n], to) == CountOf(s.ownedCount, to);
    RemoveThenSet(if pos != n then s.ownedIndex[OwnedAt(s.ownedArray, from, n) := pos] else s.ownedIndex,
                  id, CountOf(s.ownedCount, to));
    RemoveThenSet(s.owner, id, to);
  }

  /** A storage whose owned items are an append to valid ones has valid owned enumerations. */
  lemma OwnedValidAfterPush(t: Storage, entries: map<(AccountId, nat), MogwaiId>, counts: map<AccountId, nat>,
                            index: map<MogwaiId, nat>, owner: map<MogwaiId, AccountId>, to: AccountId, id: MogwaiId)
    requires OwnedIndexed(entries, counts, index, owner) && id !in owner
    requires t.ownedArray == entries[(to, CountOf(counts, to)) := id]
    requires t.ownedCount == counts[to := CountOf(counts, to) + 1]
    requires t.ownedIndex == index[id := CountOf(counts, to)]
    requires t.owner == owner[id := to]
    ensures OwnedValid(t)
  {
    OwnedPush(entries, counts, index, owner, to, id);
  }

  /** A transfer between two different accounts appends to the receiver what the pop left valid. */
  lemma TransferPushesPopped(s: Storage, from: AccountId, to: AccountId, id: MogwaiId)
    requires CountOf(s.ownedCount, from) > 0 && id in s.ownedIndex && from != to
    requires OwnedIndexed(OwnedPoppedEntries(s.ownedArray, from, CountOf(s.ownedCount, from), s.ownedIndex[id]),
                          s.ownedCount[from := CountOf(s.ownedCount, from) - 1],
                          OwnedPoppedIndex(s.ownedArray, from, CountOf(s.ownedCount, from), s.ownedIndex, s.ownedIndex[id], id),
                          s.owner - {id})
    ensures OwnedValid(Transferred(s, from, to, id))
  {
    TransferIsPopThenPush(s, from, to, id);
    OwnedValidAfterPush(Transferred(s, from, to, id),
                        OwnedPoppedEntries(s.ownedArray, from, CountOf(s.ownedCount, from), s.ownedIndex[id]),
                        s.ownedCount[from := CountOf(s.ownedCount, from) - 1],
                        OwnedPoppedIndex(s.ownedArray, from, CountOf(s.ownedCount, from), s.ownedIndex, s.ownedIndex[id], id),
                        s.owner - {id}, to, id);
  }

  /** Moving a mogwai between two different accounts keeps every owned enumeration. */
  lemma TransferOwnedValid(s: Storage, from: AccountId, to: AccountId, id: MogwaiId)
    requires OwnedValid(s) && id in s.owner && s.owner[id] == from && from != to
    ensures CountOf(s.ownedCount, from) > 0
    ensures OwnedValid(Transferred(s, from, to, id))
  {
    OwnedSwapPop(s.ownedArray, s.ownedCount, s.ownedIndex, s.owner, from, id);
    TransferPushesPopped(s, from, to, id);
  }

  /** Transferring a mogwai between two different accounts keeps the storage valid. */
  lemma TransferKeepsValid(s: Storage, from: AccountId, to: AccountId, id: MogwaiId)
    requires StorageValid(s) && id in s.owner && s.owner[id] == from && from != to
    requires CountOf(s.ownedCount, to) < U64_MAX
    ensures CountOf(s.ownedCount, from) > 0
    ensures StorageValid(Transferred(s, from, to, id))
  {
    TransferOwnedValid(s, from, to, id);
    TransferCountsFit(s, from, to, id);
    TransferRecordsMatch(s, from, to, id);
    TransferAllValid(s, from, to, id);
  }

  /**
   * The listings after a transfer between two different accounts, given
   * only that both accounts' arrays are filled below their counts.
   */
  lemma TransferListings(s: Storage, from: AccountId, to: AccountId, id: MogwaiId)
    requires CountOf(s.ownedCount, from) > 0 && from != to && IndexAt(s.ownedIndex, id) < CountOf(s.ownedCount, from)
    requires forall i | 0 <= i < CountOf(s.ownedCount, from) :: (from, i) in s.ownedArray
    requires forall i | 0 <= i < CountOf(s.ownedCount, to) :: (to, i) in s.ownedArray
    ensures OwnedIds(Transferred(s, from, to, id), from) == SwapPop(OwnedIds(s, from), IndexAt(s.ownedIndex, id))
    ensures OwnedIds(Transferred(s, from, to, id), to) == OwnedIds(s, to) + [id]
    ensures forall a | a != from && a != to :: OwnedIds(Transferred(s, from, to, id), a) == OwnedIds(s, a)
    ensures AllIds(Transferred(s, from, to, id)) == AllIds(s)
  {
    TransferredItems(s, from, to, id);
    var c := CountOf(s.ownedCount, from);
    var cTo := CountOf(s.ownedCount, to);
    var pos := IndexAt(s.ownedIndex, id);
    var popped := OwnedPoppedEntries(s.ownedArray, from, c, pos);
    OwnedSwapPopListing(s.ownedArray, from, c, pos);
    assert forall i | 0 <= i < cTo :: (to, i) in popped;
    OwnedPushListing(popped, to, cTo, id);
    var t := Transferred(s, from, to, id);
    assert OwnedIds(t, from) == OwnedListing(popped, from, c - 1);
    forall a | a != from && a != to ensures OwnedIds(t, a) == OwnedIds(s, a) {
      assert CountOf(t.ownedCount, a) == CountOf(s.ownedCount, a);
      assert OwnedListing(popped[(to, cTo) := id], a, CountOf(s.ownedCount, a))
          == OwnedListing(popped, a, CountOf(s.ownedCount, a));
    }
  }

  /**
   * A transfer pops the id from the sender's enumeration, appends it to
   * the receiver's, and leaves every other enumeration as it was.
   */
  lemma TransferMoves(s: Storage, from: AccountId, to: AccountId, id: MogwaiId)
    requires OwnedValid(s) && id in s.owner && s.owner[id] == from && from != to
    ensures CountOf(s.ownedCount, from) > 0
    ensures IndexAt(s.ownedIndex, id) < |OwnedIds(s, from)| && OwnedIds(s, from)[IndexAt(s.ownedIndex, id)] == id
    ensures OwnedIds(Transferred(s, from, to, id), from) == SwapPop(OwnedIds(s, from), IndexAt(s.ownedIndex, id))
    ensures OwnedIds(Transferred(s, from, to, id), to) == OwnedIds(s, to) + [id]
    ensures forall a | a != from && a != to :: OwnedIds(Transferred(s, from, to, id), a) == OwnedIds(s, a)
    ensures AllIds(Transferred(s, from, to, id)) == AllIds(s)
  {
    assert IndexAt(s.ownedIndex, id) == s.ownedIndex[id];
    TransferListings(s, from, to, id);
  }

  /**
   * `transfer_from` does not reject a transfer to oneself: the owner's
   * count then grows by one and its old last position is left empty, so
   * the owned enumeration is no longer valid.
   */
  lemma TransferToSelfLeavesHole(s: Storage, from: AccountId, id: MogwaiId)
    requires OwnedValid(s) && id in s.owner && s.owner[id] == from
    ensures CountOf(s.ownedCount, from) > 0
    ensures CountOf(Transferred(s, from, from, id).ownedCount, from) == CountOf(s.ownedCount, from) + 1
    ensures (from, CountOf(s.ownedCount, from) - 1) !in Transferred(s, from, from, id).ownedArray
    ensures !OwnedValid(Transferred(s, from, from, id))
  {
    OwnedSwapPop(s.ownedArray, s.ownedCount, s.ownedIndex, s.owner, from, id);
    TransferredItems(s, from, from, id);
    var t := Transferred(s, from, from, id);
    var c := CountOf(s.ownedCount, from);
    assert CountOf(t.ownedCount, from) == c + 1;
    assert (from, c - 1) !in t.ownedArray;
    assert !OwnedListed(t.ownedArray, t.ownedCount, t.ownedIndex, t.owner) by {
      assert 0 <= c - 1 < CountOf(t.ownedCount, from);
    }
  }

  // ----- record updates -----

  /** A `ValueQuery` read of `Mogwais`: a missing id reads as the default record. */
  function RecordOf(mogwais: map<MogwaiId, Mogwai>, id: MogwaiId): Mogwai
  {
    if id in mogwais then mogwais[id] else Mogwai(0, 0, 0)
  }

  /** Rewriting the records of live mogwais, and the bios of live mogwais, keeps the storage valid. */
  lemma RecordsRewriteKeepsValid(s: Storage, mogwais: map<MogwaiId, Mogwai>, bios: map<MogwaiId, nat>)
    requires StorageValid(s) && mogwais.Keys == s.owner.Keys && bios.Keys <= s.owner.Keys
    ensures StorageValid(s.(mogwais := mogwais, bios := bios))
  {
    var t := s.(mogwais := mogwais, bios := bios);
    assert CountsFit(t) && RecordsMatch(t);
    assert AllValid(t) by { assert t.allArray == s.allArray && t.owner == s.owner; }
    assert OwnedValid(t) by { assert t.ownedArray == s.ownedArray && t.owner == s.owner; }
  }

  /**
   * The records after the gains of `sacrifice_into`: the target takes the
   * new generation and, when the sacrificed mogwai's intrinsic balance is
   * positive, the sum of both balances.
   */
  function Fed(s: Storage, id1: MogwaiId, id2: MogwaiId, genJump: U32): Storage
    requires id1 in s.bios && id2 in s.bios
  {
    var target := RecordOf(s.mogwais, id2);
    var gen := WrapAddU32(target.gen, genJump);
    s.(mogwais := if genJump > 0 && gen <= 16 then s.mogwais[id2 := target.(gen := gen)] else s.mogwais,
       bios := if s.bios[id1] > 0 then s.bios[id2 := s.bios[id2] + s.bios[id1]] else s.bios)
  }

  /** Unfolds `Fed` once. */
  lemma FedItems(s: Storage, id1: MogwaiId, id2: MogwaiId, genJump: U32)
    requires id1 in s.bios && id2 in s.bios
    ensures Fed(s, id1, id2, genJump) ==
            s.(mogwais := if genJump > 0 && WrapAddU32(RecordOf(s.mogwais, id2).gen, genJump) <= 16
                          then s.mogwais[id2 := RecordOf(s.mogwais, id2).(gen := WrapAddU32(RecordOf(s.mogwais, id2).gen, genJump))]
                          else s.mogwais,
               bios := if s.bios[id1] > 0 then s.bios[id2 := s.bios[id2] + s.bios[id1]] else s.bios)
  {
  }

  /** The gains keep the storage valid and touch neither owners nor enumerations. */
  lemma FedKeepsValid(s: Storage, id1: MogwaiId, id2: MogwaiId, genJump: U32)
    requires StorageValid(s) && id1 in s.bios && id2 in s.bios
    ensures Fed(s, id1, id2, genJump).owner == s.owner
    ensures AllIds(Fed(s, id1, id2, genJump)) == AllIds(s)
    ensures forall a :: OwnedIds(Fed(s, id1, id2, genJump), a) == OwnedIds(s, a)
    ensures StorageValid(Fed(s, id1, id2, genJump))
  {
    FedItems(s, id1, id2, genJump);
    var f := Fed(s, id1, id2, genJump);
    RecordsRewriteKeepsValid(s, f.mogwais, f.bios);
  }

  /**
   * After `sacrifice_into`, the target has the new generation and both
   * intrinsic balances, and the sacrificed mogwai has no record left.
   */
  lemma SacrificeIntoRecords(s: Storage, sender: AccountId, id1: MogwaiId, id2: MogwaiId, genJump: U32)
    requires id1 != id2 && id1 in s.bios && id2 in s.bios && id2 in s.mogwais && id2 in s.owner
    requires s.allCount > 0 && CountOf(s.ownedCount, sender) > 0
    ensures Fed(s, id1, id2, genJump).allCount == s.allCount
    ensures Fed(s, id1, id2, genJump).ownedCount == s.ownedCount
    ensures id1 !in Removed(Fed(s, id1, id2, genJump), sender, id1).mogwais
    ensures id1 !in Removed(Fed(s, id1, id2, genJump), sender, id1).bios
    ensures id1 !in Removed(Fed(s, id1, id2, genJump), sender, id1).owner
    ensures id2 in Removed(Fed(s, id1, id2, genJump), sender, id1).owner
    ensures Removed(Fed(s, id1, id2, genJump), sender, id1).owner[id2] == s.owner[id2]
    ensures id2 in Removed(Fed(s, id1, id2, genJump), sender, id1).mogwais
    ensures Removed(Fed(s, id1, id2, genJump), sender, id1).mogwais[id2] ==
            s.mogwais[id2].(gen := SacrificedGen(s.mogwais[id2].gen, genJump))
    ensures id2 in Removed(Fed(s, id1, id2, genJump), sender, id1).bios
    ensures Removed(Fed(s, id1, id2, genJump), sender, id1).bios[id2] == s.bios[id2] + s.bios[id1]
  {
    FedItems(s, id1, id2, genJump);
    RemovedItems(Fed(s, id1, id2, genJump), sender, id1);
  }

  /**
   * Sacrificing a mogwai of the sender's into another keeps the storage
   * valid and takes one copy of the sacrificed id out of the enumeration
   * of all mogwais and out of the sender's.
   */
  lemma SacrificeIntoKeepsValid(s: Storage, sender: AccountId, id1: MogwaiId, id2: MogwaiId, genJump: U32)
    requires StorageValid(s) && id1 != id2
    requires id1 in s.owner && s.owner[id1] == sender && id2 in s.owner && s.owner[id2] == sender
    requires id1 in s.bios && id2 in s.bios
    ensures s.allCount > 0 && CountOf(s.ownedCount, sender) > 0
    ensures Fed(s, id1, id2, genJump).allCount > 0 && CountOf(Fed(s, id1, id2, genJump).ownedCount, sender) > 0
    ensures StorageValid(Removed(Fed(s, id1, id2, genJump), sender, id1))
    ensures multiset(AllIds(Removed(Fed(s, id1, id2, genJump), sender, id1))) == multiset(AllIds(s)) - multiset{id1}
    ensures multiset(OwnedIds(Removed(Fed(s, id1, id2, genJump), sender, id1), sender))
            == multiset(OwnedIds(s, sender)) - multiset{id1}
  {
    FedKeepsValid(s, id1, id2, genJump);
    var f := Fed(s, id1, id2, genJump);
    RemoveKeepsValid(f, sender, id1);
    RemoveAllPops(f, sender, id1);
    RemoveOwnedPops(f, sender, id1);
    SwapPopRemoves(OwnedIds(f, sender), IndexAt(f.ownedIndex, id1));
    RemovedItems(f, sender, id1);
  }

  // ----- buy -----

  /** The storage after `buy_mogwai` of `id` by `buyer`: moved from its owner to the buyer, its price reset to zero. */
  function Bought(s: Storage, buyer: AccountId, id: MogwaiId): Storage
    requires id in s.mogwais && id in s.owner && CountOf(s.ownedCount, s.owner[id]) > 0
  {
    Transferred(s, s.owner[id], buyer, id).(mogwais := s.mogwais[id := s.mogwais[id].(price := 0)])
  }

  /** A transfer rewrites no record and no bios, and only the owner of the moved id. */
  lemma TransferKeepsRecords(s: Storage, from: AccountId, to: AccountId, id: MogwaiId)
    requires CountOf(s.ownedCount, from) > 0
    ensures Transferred(s, from, to, id).mogwais == s.mogwais
    ensures Transferred(s, from, to, id).bios == s.bios
    ensures Transferred(s, from, to, id).owner == s.owner[id := to]
  {
    TransferredItems(s, from, to, id);
  }

  /** Rewriting the record of one live mogwai keeps the storage valid. */
  lemma RecordRewriteKeepsValid(t: Storage, id: MogwaiId, m: Mogwai)
    requires StorageValid(t) && id in t.mogwais
    ensures StorageValid(t.(mogwais := t.mogwais[id := m]))
  {
    var mogwais: map<MogwaiId, Mogwai> := t.mogwais[id := m];
    assert mogwais.Keys == t.owner.Keys;
    RecordsRewriteKeepsValid(t, mogwais, t.bios);
    assert t.(mogwais := mogwais, bios := t.bios) == t.(mogwais := mogwais);
  }

  /** Buying a live mogwai of another account keeps the storage valid. */
  lemma BoughtKeepsValid(s: Storage, buyer: AccountId, id: MogwaiId)
    requires StorageValid(s) && id in s.owner && s.owner[id] != buyer && CountOf(s.ownedCount, buyer) < U64_MAX
    ensures id in s.mogwais && CountOf(s.ownedCount, s.owner[id]) > 0
    ensures StorageValid(Bought(s, buyer, id))
  {
    var seller := s.owner[id];
    TransferKeepsValid(s, seller, buyer, id);
    TransferKeepsRecords(s, seller, buyer, id);
    var t := Transferred(s, seller, buyer, id);
    RecordRewriteKeepsValid(t, id, s.mogwais[id].(price := 0));
    assert Bought(s, buyer, id) == t.(mogwais := t.mogwais[id := t.mogwais[id].(price := 0)]);
  }

  /**
   * After a purchase the buyer owns the mogwai, its price is zero, and
   * every other record and every other owner is unchanged.
   */
  lemma BoughtRecords(s: Storage, buyer: AccountId, id: MogwaiId)
    requires id in s.mogwais && id in s.owner && CountOf(s.ownedCount, s.owner[id]) > 0
    ensures id in Bought(s, buyer, id).owner && Bought(s, buyer, id).owner[id] == buyer
    ensures forall other | other != id && other in s.owner ::
              other in Bought(s, buyer, id).owner && Bought(s, buyer, id).owner[other] == s.owner[other]
    ensures id in Bought(s, buyer, id).mogwais && Bought(s, buyer, id).mogwais[id] == s.mogwais[id].(price := 0)
    ensures forall other | other != id && other in s.mogwais ::
              other in Bought(s, buyer, id).mogwais && Bought(s, buyer, id).mogwais[other] == s.mogwais[other]
    ensures Bought(s, buyer, id).bios == s.bios
  {
    TransferKeepsRecords(s, s.owner[id], buyer, id);
  }

  /** `BoughtKeepsValid` as one implication. */
  lemma BoughtValidity(s: Storage, buyer: AccountId, id: MogwaiId)
    requires id in s.mogwais && id in s.owner && CountOf(s.ownedCount, s.owner[id]) > 0
    ensures StorageValid(s) && s.owner[id] != buyer && CountOf(s.ownedCount, buyer) < U64_MAX
            ==> StorageValid(Bought(s, buyer, id))
  {
    if StorageValid(s) && s.owner[id] != buyer && CountOf(s.ownedCount, buyer) < U64_MAX {
      BoughtKeepsValid(s, buyer, id);
    }
  }

  /** `MintKeepsValid` as one implication, for callers that do not know the storage is valid. */
  lemma MintValidity(s: Storage, to: AccountId, id: MogwaiId, mogwai: Mogwai)
    ensures StorageValid(s) && id !in s.owner && s.allCount < U64_MAX && CountOf(s.ownedCount, to) < U64_MAX
            ==> StorageValid(Minted(s, to, id, mogwai))
  {
    if StorageValid(s) && id !in s.owner && s.allCount < U64_MAX && CountOf(s.ownedCount, to) < U64_MAX {
      MintKeepsValid(s, to, id, mogwai);
    }
  }

  /** `RemoveKeepsValid` as one implication. */
  lemma RemoveValidity(s: Storage, from: AccountId, id: MogwaiId)
    requires s.allCount > 0 && CountOf(s.ownedCount, from) > 0
    ensures StorageValid(s) && id in s.owner && s.owner[id] == from ==> StorageValid(Removed(s, from, id))
  {
    if StorageValid(s) && id in s.owner && s.owner[id] == from {
      RemoveKeepsValid(s, from, id);
    }
  }

  /** `TransferKeepsValid` as one implication. */
  lemma TransferValidity(s: Storage, from: AccountId, to: AccountId, id: MogwaiId)
    requires CountOf(s.ownedCount, from) > 0
    ensures StorageValid(s) && id in s.owner && s.owner[id] == from && from != to && CountOf(s.ownedCount, to) < U64_MAX
            ==> StorageValid(Transferred(s, from, to, id))
  {
    if StorageValid(s) && id in s.owner && s.owner[id] == from && from != to && CountOf(s.ownedCount, to) < U64_MAX {
      TransferKeepsValid(s, from, to, id);
    }
  }

  /** `FedKeepsValid` as one implication. */
  lemma FedValidity(s: Storage, id1: MogwaiId, id2: MogwaiId, genJump: U32)
    requires id1 in s.bios && id2 in s.bios
    ensures StorageValid(s) ==> StorageValid(Fed(s, id1, id2, genJump))
  {
    if StorageValid(s) {
      FedKeepsValid(s, id1, id2, genJump);
    }
  }

  /** `RecordsRewriteKeepsValid` as one implication. */
  lemma RecordsRewriteValidity(s: Storage, mogwais: map<MogwaiId, Mogwai>, bios: map<MogwaiId, nat>)
    ensures StorageValid(s) && mogwais.Keys == s.owner.Keys && bios.Keys <= s.owner.Keys
            ==> StorageValid(s.(mogwais := mogwais, bios := bios))
  {
    if StorageValid(s) && mogwais.Keys == s.owner.Keys && bios.Keys <= s.owner.Keys {
      RecordsRewriteKeepsValid(s, mogwais, bios);
    }
  }

  // ----- the pallet -----

  /** The pallet's storage, rewritten in place by the dispatchables and helpers below. */
  class MogwaiRegistry {
    var storage: Storage

    ghost predicate Valid()
      reads this
    {
      StorageValid(storage)
    }

    /** The genesis state: no mogwais, both counts zero. */
    constructor ()
      ensures Valid() && AllIds(storage) == [] && storage.owner == map[]
    {
      storage := Storage(map[], map[], map[], map[], 0, map[], map[], map[], map[]);
    }

    /** `mint`: records a new mogwai for `to` and appends it to both enumerations. */
    method Mint(to: AccountId, id: MogwaiId, mogwai: Mogwai) returns (r: DispatchResult)
      modifies this
      ensures old(Valid()) ==> Valid()
      ensures id in old(storage.owner) ==> r == Err(MogwaiAlreadyExists)
      ensures id !in old(storage.owner) && CountOf(old(storage.ownedCount), to) == U64_MAX ==> r == Err(Overflow)
      ensures id !in old(storage.owner) && old(storage.allCount) == U64_MAX ==> r == Err(Overflow)
      ensures r.Ok? <==> id !in old(storage.owner) && CountOf(old(storage.ownedCount), to) < U64_MAX
                         && old(storage.allCount) < U64_MAX
      ensures r.Ok? ==> storage == Minted(old(storage), to, id, mogwai)
      ensures r.Err? ==> storage == old(storage)
    {
      if id in storage.owner {
        return Err(MogwaiAlreadyExists);
      }
      var ownedCount := CountOf(storage.ownedCount, to);
      if ownedCount + 1 > U64_MAX {
        return Err(Overflow);
      }
      var newOwnedCount := ownedCount + 1;
      var allCount := storage.allCount;
      if allCount + 1 > U64_MAX {
        return Err(Overflow);
      }
      var newAllCount := allCount + 1;
      ghost var s := storage;
      var mogwais: map<MogwaiId, Mogwai> := storage.mogwais[id := mogwai];
      var owner: map<MogwaiId, AccountId> := storage.owner[id := to];
      var allArray: map<nat, MogwaiId> := storage.allArray[allCount := id];
      var allIndex: map<MogwaiId, nat> := storage.allIndex[id := allCount];
      var ownedArray: map<(AccountId, nat), MogwaiId> := storage.ownedArray[(to, ownedCount) := id];
      var ownedCounts: map<AccountId, nat> := storage.ownedCount[to := newOwnedCount];
      var ownedIndex: map<MogwaiId, nat> := storage.ownedIndex[id := ownedCount];
      storage := Storage(mogwais, storage.bios, owner, allArray, newAllCount, allIndex,
                         ownedArray, ownedCounts, ownedIndex);
      MintedItems(s, to, id, mogwai);
      assert storage == Minted(s, to, id, mogwai);
      MintValidity(s, to, id, mogwai);
      r := Ok;
    }

    /**
     * `remove`: deletes the records of `id` and swaps and pops it out of
     * the enumeration of all mogwais and out of `from`'s. Only the
     * existence of an owner is checked, not that it is `from`.
     */
    method Remove(from: AccountId, id: MogwaiId) returns (r: DispatchResult)
      modifies this
      ensures id !in old(storage.owner) ==> r == Err(MogwaiDoesntExists)
      ensures id in old(storage.owner) && CountOf(old(storage.ownedCount), from) == 0 ==> r == Err(Overflow)
      ensures r.Ok? <==> id in old(storage.owner) && CountOf(old(storage.ownedCount), from) > 0 && old(storage.allCount) > 0
      ensures r.Ok? ==> storage == Removed(old(storage), from, id)
      ensures r.Err? ==> storage == old(storage)
      ensures old(Valid()) && id in old(storage.owner) && old(storage.owner)[id] == from ==> r == Ok && Valid()
    {
      if id !in storage.owner {
        return Err(MogwaiDoesntExists);
      }
      var ownedCount := CountOf(storage.ownedCount, from);
      if ownedCount == 0 {
        return Err(Overflow);
      }
      var newOwnedCount: nat := ownedCount - 1;
      var allCount := storage.allCount;
      if allCount == 0 {
        return Err(Overflow);
      }
      var newAllCount: nat := allCount - 1;
      ghost var s := storage;
      var mogwais: map<MogwaiId, Mogwai> := storage.mogwais - {id};
      var bios: map<MogwaiId, nat> := storage.bios - {id};
      var owner: map<MogwaiId, AccountId> := storage.owner - {id};
      var allPos := IndexAt(storage.allIndex, id);
      var allArray := AllPoppedEntries(storage.allArray, allCount, allPos);
      var allIndex := AllPoppedIndex(storage.allArray, allCount, storage.allIndex, allPos, id);
      var pos := IndexAt(storage.ownedIndex, id);
      var ownedArray := OwnedPoppedEntries(storage.ownedArray, from, ownedCount, pos);
      var ownedCounts: map<AccountId, nat> := storage.ownedCount[from := newOwnedCount];
      var ownedIndex := OwnedPoppedIndex(storage.ownedArray, from, ownedCount, storage.ownedIndex, pos, id);
      storage := Storage(mogwais, bios, owner, allArray, newAllCount, allIndex, ownedArray, ownedCounts, ownedIndex);
      RemovedItems(s, from, id);
      assert storage == Removed(s, from, id);
      RemoveValidity(s, from, id);
      r := Ok;
    }

    /**
     * `transfer_from`: moves `id` from `from`'s enumeration to the end of
     * `to`'s by a swap and pop, and makes `to` its owner.
     */
    method TransferFrom(from: AccountId, to: AccountId, id: MogwaiId) returns (r: DispatchResult)
      modifies this
      ensures id !in old(storage.owner) ==> r == Err(NoOwner)
      ensures id in old(storage.owner) && old(storage.owner)[id] != from ==> r == Err(NotOwner)
      ensures r.Ok? <==> id in old(storage.owner) && old(storage.owner)[id] == from
                         && CountOf(old(storage.ownedCount), from) > 0 && CountOf(old(storage.ownedCount), to) < U64_MAX
      ensures r.Ok? ==> storage == Transferred(old(storage), from, to, id)
      ensures r.Err? ==> storage == old(storage)
      ensures old(Valid()) && from != to ==> Valid()
      ensures (old(Valid()) && id in old(storage.owner) && old(storage.owner)[id] == from
               && CountOf(old(storage.ownedCount), to) < U64_MAX) ==> r == Ok
    {
      var countFrom := CountOf(storage.ownedCount, from);
      var countTo := CountOf(storage.ownedCount, to);
      if id !in storage.owner {
        r := Err(NoOwner);
      } else if storage.owner[id] != from {
        r := Err(NotOwner);
      } else if countFrom == 0 {
        r := Err(Overflow);
      } else if countTo + 1 > U64_MAX {
        r := Err(Overflow);
      } else {
        var newCountFrom: nat := countFrom - 1;
        var newCountTo: nat := countTo + 1;
        ghost var s := storage;
        var pos := IndexAt(storage.ownedIndex, id);
        var owner: map<MogwaiId, AccountId> := storage.owner[id := to];
        var ownedIndex: map<MogwaiId, nat> := storage.ownedIndex;
        if pos != newCountFrom {
          ownedIndex := ownedIndex[OwnedAt(storage.ownedArray, from, newCountFrom) := pos];
        }
        ownedIndex := ownedIndex[id := countTo];
        var ownedArray := OwnedPoppedEntries(storage.ownedArray, from, countFrom, pos)[(to, countTo) := id];
        var ownedCounts: map<AccountId, nat> := storage.ownedCount[from := newCountFrom][to := newCountTo];
        storage := storage.(owner := owner, ownedArray := ownedArray, ownedCount := ownedCounts, ownedIndex := ownedIndex);
        TransferredItems(s, from, to, id);
        assert storage == Transferred(s, from, to, id);
        TransferValidity(s, from, to, id);
        r := Ok;
      }
    }

    /**
     * `buy_mogwai`: the buyer pays the price to the owner and takes the
     * mogwai, whose price resets to zero. The account limit `maxMogwais`
     * (`config_value(sender, 1)`) and the outcome of the currency transfer
     * are inputs.
     */
    method BuyMogwai(sender: AccountId, id: MogwaiId, maxPrice: nat, maxMogwais: U32, paymentOk: bool)
      returns (r: DispatchResult)
      modifies this
      ensures id !in old(storage.mogwais) || id !in old(storage.owner) ==> r == Err(MogwaiDoesntExists)
      ensures id in old(storage.owner) && old(storage.owner)[id] == sender && id in old(storage.mogwais)
              ==> r == Err(AlreadyOwner)
      ensures id in old(storage.mogwais) && old(storage.mogwais)[id].price == 0 && r.Err? ==> r.error != PriceAboveMax
      ensures r.Ok? ==> id in old(storage.mogwais) && id in old(storage.owner) && old(storage.owner)[id] != sender
                        && 0 < old(storage.mogwais)[id].price <= maxPrice
                        && CountOf(old(storage.ownedCount), sender) < maxMogwais && paymentOk
      ensures r.Ok? ==> CountOf(old(storage.ownedCount), old(storage.owner)[id]) > 0
                        && storage == Bought(old(storage), sender, id)
      ensures r.Err? ==> storage == old(storage)
      ensures old(Valid()) ==> Valid() && r != Err(TransferPanicked)
      ensures (old(Valid()) && id in old(storage.mogwais) && id in old(storage.owner) && old(storage.owner)[id] != sender
               && 0 < old(storage.mogwais)[id].price <= maxPrice
               && CountOf(old(storage.ownedCount), sender) < maxMogwais && paymentOk) ==> r == Ok
    {
      if id !in storage.mogwais || id !in storage.owner {
        r := Err(MogwaiDoesntExists);
      } else if storage.owner[id] == sender {
        r := Err(AlreadyOwner);
      } else if storage.mogwais[id].price == 0 {
        r := Err(NoPrice);
      } else if storage.mogwais[id].price > maxPrice {
        r := Err(PriceAboveMax);
      } else if CountOf(storage.ownedCount, sender) >= maxMogwais {
        r := Err(MaxMogwaisInAccount);
      } else if !paymentOk {
        r := Err(PaymentFailed);
      } else {
        ghost var s := storage;
        var owner := storage.owner[id];
        var mogwai := storage.mogwais[id];
        var transferred := TransferFrom(owner, sender, id);
        if transferred.Err? {
          r := Err(TransferPanicked);
        } else {
          mogwai := mogwai.(price := 0);
          storage := storage.(mogwais := storage.mogwais[id := mogwai]);
          BoughtValidity(s, sender, id);
          assert storage == Bought(s, sender, id);
          r := Ok;
        }
      }
    }

    /**
     * `sacrifice_into`: two mogwais of the sender, of rarity codes whose
     * `u8` product is not zero and both with bios; the target gains the
     * generation jump `genJump` (computed by the breeding rules, an input
     * here) and the sacrificed intrinsic balance, and the sacrificed
     * mogwai is removed.
     */
    method SacrificeInto(sender: AccountId, id1: MogwaiId, id2: MogwaiId, genJump: U32) returns (r: DispatchResult)
      modifies this
      ensures id1 !in old(storage.owner) || id2 !in old(storage.owner) ==> r == Err(MogwaiDoesntExists)
      ensures id1 in old(storage.owner) && id2 in old(storage.owner)
              && (old(storage.owner)[id1] != old(storage.owner)[id2] || old(storage.owner)[id1] != sender)
              ==> r == Err(MogwaiNotOwned)
      ensures id1 == id2 && id1 in old(storage.owner) && old(storage.owner)[id1] == sender ==> r == Err(MogwaiSame)
      ensures r.Ok? ==> id1 in old(storage.owner) && old(storage.owner)[id1] == sender
                        && id2 in old(storage.owner) && old(storage.owner)[id2] == sender && id1 != id2
                        && (RecordOf(old(storage.mogwais), id1).rarity * RecordOf(old(storage.mogwais), id2).rarity) % 256 != 0
                        && id1 in old(storage.bios) && id2 in old(storage.bios)
      ensures r.Ok? ==> Fed(old(storage), id1, id2, genJump).allCount > 0
                        && CountOf(Fed(old(storage), id1, id2, genJump).ownedCount, sender) > 0
                        && storage == Removed(Fed(old(storage), id1, id2, genJump), sender, id1)
      ensures old(Valid()) ==> Valid()
      ensures old(Valid()) && r.Err? ==> storage == old(storage)
      ensures (old(Valid()) && id1 in old(storage.owner) && old(storage.owner)[id1] == sender
               && id2 in old(storage.owner) && old(storage.owner)[id2] == sender && id1 != id2
               && (old(storage.mogwais)[id1].rarity * old(storage.mogwais)[id2].rarity) % 256 != 0
               && id1 in old(storage.bios) && id2 in old(storage.bios)) ==> r == Ok
    {
      if id1 !in storage.owner || id2 !in storage.owner {
        r := Err(MogwaiDoesntExists);
      } else if storage.owner[id1] != storage.owner[id2] || storage.owner[id1] != sender {
        r := Err(MogwaiNotOwned);
      } else if id1 == id2 {
        r := Err(MogwaiSame);
      } else if (RecordOf(storage.mogwais, id1).rarity * RecordOf(storage.mogwais, id2).rarity) % 256 == 0 {
        r := Err(RarityTooLow);
      } else if id1 !in storage.bios || id2 !in storage.bios {
        r := Err(MogwaiHasNoBios);
      } else {
        var mogwai2 := RecordOf(storage.mogwais, id2);
        var bios1 := storage.bios[id1];
        var bios2 := storage.bios[id2];
        ghost var s := storage;
        var gen := WrapAddU32(mogwai2.gen, genJump);
        if genJump > 0 && gen <= 16 {
          mogwai2 := mogwai2.(gen := gen);
          storage := storage.(mogwais := storage.mogwais[id2 := mogwai2]);
        }
        if bios1 > 0 {
          bios2 := bios2 + bios1;
          storage := storage.(bios := storage.bios[id2 := bios2]);
        }
        FedItems(s, id1, id2, genJump);
        assert storage == Fed(s, id1, id2, genJump);
        FedValidity(s, id1, id2, genJump);
        r := Remove(sender, id1);
      }
    }
  }
}
