/**
 * The auction pallet (pallets/ajuna-auction/src/lib.rs): auctions of NFT
 * tokens with a rising minimal bid and an anti-sniping extension.
 *
 * The four storage items the core touches are the fields of a class:
 * `Auctions` (id to auction record), `NextAuctionId`, the end-time index
 * `AuctionEndTime` (a double map to `()`, so a set of pairs) and
 * `AuctionOwnerById`. Block numbers and auction ids are `u64`, balances
 * `u128`, as in the pallet's test runtime; the one unchecked addition on
 * block numbers, `now + BID_ADD_BLOCKS` (and `start + MIN_AUCTION_DUR` in
 * the creation check), wraps around as a release build does.
 *
 * The NFT pallet's `is_owner` and `is_locked` are inputs, the current
 * block number is an input, and a failing call leaves the storage as it
 * was: `try_mutate` and `try_mutate_exists` write nothing when their
 * closure fails, and the dispatch rolls back the writes of a failing call.
 */
module Auction {
  import opened Bits

  const U64_MAX: nat := 0xFFFF_FFFF_FFFF_FFFF
  const U128_MAX: nat := 0xFFFF_FFFF_FFFF_FFFF_FFFF_FFFF_FFFF_FFFF

  /** `BID_STEP_PERC`: each bid raises the minimal bid by this percentage. */
  const BID_STEP_PERC: nat := 10
  /** `BID_ADD_BLOCKS`: a bid with fewer blocks left extends the auction to this many. */
  const BID_ADD_BLOCKS: nat := 10
  /** `MIN_AUCTION_DUR`: the end must lie more than this many blocks after the start. */
  const MIN_AUCTION_DUR: nat := 10

  type AccountId = nat
  type BlockNumber = nat
  type AuctionId = nat
  type Balance = nat

  /** The one auction type the pallet's tests use; the trait file declaring the type is not part of this model. */
  datatype AuctionType = English

  /** `AuctionInfo`: the auction record. */
  datatype AuctionInfo = AuctionInfo(
    name: seq<Byte>,
    lastBid: Option<(AccountId, Balance)>,
    start: BlockNumber,
    end: BlockNumber,
    owner: AccountId,
    auctionType: AuctionType,
    tokenId: (nat, nat),
    minimalBid: Balance)

  datatype Option<T> = None | Some(value: T)

  datatype AuctionError =
    | AuctionNotExist
    | AuctionNotStarted
    | AuctionAlreadyStarted
    | InvalidBidPrice
    | NoAvailableAuctionId
    | AuctionStartTimeAlreadyPassed
    | InvalidTimeConfiguration
    | NotATokenOwner
    | AuctionAlreadyConcluded
    | BidOverflow
    | BidOnOwnAuction
    | TokenLocked
    | EmptyAuctionName
    | NftError            // the NFT pallet's `is_locked` failed

  datatype Result<T> = Ok(value: T) | Err(error: AuctionError)

  /** An unchecked `u64` addition of a release build. */
  function WrapAddU64(a: nat, b: nat): (r: nat)
    requires a <= U64_MAX && b <= U64_MAX
    ensures r <= U64_MAX
    ensures a + b <= U64_MAX ==> r == a + b
    ensures a + b > U64_MAX ==> r == a + b - (U64_MAX + 1) && r < a
  {
    if a + b <= U64_MAX then a + b else a + b - (U64_MAX + 1)
  }

  /** `Permill::mul_floor`: `parts` millionths of `value`, rounded down. */
  function PermillMulFloor(parts: nat, value: nat): nat
    requires parts <= 1_000_000
  {
    value * parts / 1_000_000
  }

  /** `Permill::from_percent`. */
  function PermillFromPercent(percent: nat): (parts: nat)
    requires percent <= 100
    ensures parts <= 1_000_000
  {
    percent * 10_000
  }

  /** The step a bid adds to its value to give the next minimal bid: a tenth of it, rounded down. */
  lemma BidStepIsATenth(value: nat)
    ensures PermillMulFloor(PermillFromPercent(BID_STEP_PERC), value) == value / 10
    ensures value >= 10 ==> PermillMulFloor(PermillFromPercent(BID_STEP_PERC), value) > 0
  {
    assert value * 100_000 / 1_000_000 == value / 10 by {
      var q := value / 10;
      var m := value % 10;
      assert value == 10 * q + m;
      assert value * 100_000 == 1_000_000 * q + 100_000 * m;
    }
  }

  // ----- creation check -----

  /**
   * `check_new_auction`: the start is not in the past, the end lies more
   * than `MIN_AUCTION_DUR` blocks after the start (with the sum computed
   * in `u64`), the name is not empty, the owner owns the token and the
   * token is not locked. `isOwner` and `nftLocked` are the NFT pallet's
   * answers; `nftLocked` is `None` when `is_locked` fails.
   */
  function CheckNewAuction(info: AuctionInfo, now: BlockNumber, isOwner: bool, nftLocked: Option<bool>): (r: Result<()>)
    requires info.start <= U64_MAX
  {
    if info.start < now then Err(AuctionStartTimeAlreadyPassed)
    else if !(info.end > 0 && info.end > WrapAddU64(info.start, MIN_AUCTION_DUR)) then Err(InvalidTimeConfiguration)
    else if |info.name| == 0 then Err(EmptyAuctionName)
    else if !isOwner then Err(NotATokenOwner)
    else if nftLocked.None? then Err(NftError)
    else if nftLocked.value then Err(TokenLocked)
    else Ok(())
  }

  /**
   * An accepted auction starts now or later, has a name and an unlocked
   * token of its owner, and, when its start is more than `MIN_AUCTION_DUR`
   * blocks below the `u64` limit, ends more than `MIN_AUCTION_DUR` blocks
   * after it starts; each failing condition gives its error.
   */
  lemma CheckNewAuctionAccepts(info: AuctionInfo, now: BlockNumber, isOwner: bool, nftLocked: Option<bool>)
    requires info.start <= U64_MAX
    ensures CheckNewAuction(info, now, isOwner, nftLocked).Ok? ==>
              now <= info.start && |info.name| > 0 && isOwner && nftLocked == Some(false)
    ensures CheckNewAuction(info, now, isOwner, nftLocked).Ok? && info.start + MIN_AUCTION_DUR <= U64_MAX ==>
              info.end > info.start + MIN_AUCTION_DUR
    ensures (now <= info.start && info.end > info.start + MIN_AUCTION_DUR && |info.name| > 0 && isOwner
             && nftLocked == Some(false)) ==> CheckNewAuction(info, now, isOwner, nftLocked).Ok?
    ensures info.start < now ==> CheckNewAuction(info, now, isOwner, nftLocked) == Err(AuctionStartTimeAlreadyPassed)
    ensures now <= info.start && info.end <= info.start + MIN_AUCTION_DUR && info.start + MIN_AUCTION_DUR <= U64_MAX
            ==> CheckNewAuction(info, now, isOwner, nftLocked) == Err(InvalidTimeConfiguration)
  {
  }

  /**
   * Near the `u64` limit the wrapped `start + MIN_AUCTION_DUR` is small,
   * so the check accepts an auction that ends before it starts.
   */
  lemma CheckNewAuctionAcceptsEndBeforeStart()
    ensures CheckNewAuction(AuctionInfo([1], None, U64_MAX, 100, 1, English, (0, 0), 0), 0, true, Some(false)).Ok?
  {
    assert WrapAddU64(U64_MAX, MIN_AUCTION_DUR) == 9;
  }

  // ----- bidding -----

  /**
   * The conditions of `bid` on an existing auction, in the source's
   * order: not the owner, strictly inside the auction's blocks, at least
   * the minimal bid, above the previous bid or non-zero for a first bid,
   * and a next minimal bid that fits in `u128`.
   */
  function BidCheck(a: AuctionInfo, bidder: AccountId, value: Balance, now: BlockNumber): (r: Result<()>)
  {
    if bidder == a.owner then Err(BidOnOwnAuction)
    else if now <= a.start then Err(AuctionNotStarted)
    else if now >= a.end then Err(AuctionAlreadyConcluded)
    else if value < a.minimalBid then Err(InvalidBidPrice)
    else if a.lastBid.Some? && value <= a.lastBid.value.1 then Err(InvalidBidPrice)
    else if a.lastBid.None? && value == 0 then Err(InvalidBidPrice)
    else if value + PermillMulFloor(PermillFromPercent(BID_STEP_PERC), value) > U128_MAX then Err(BidOverflow)
    else Ok(())
  }

  /**
   * The auction record after an accepted bid: the bid is the last one,
   * the minimal bid rises by a tenth, and an auction with fewer than
   * `BID_ADD_BLOCKS` blocks left now ends `BID_ADD_BLOCKS` after this block.
   */
  function Placed(a: AuctionInfo, bidder: AccountId, value: Balance, now: BlockNumber): AuctionInfo
    requires now < a.end && now <= U64_MAX
  {
    a.(lastBid := Some((bidder, value)),
       minimalBid := value + PermillMulFloor(PermillFromPercent(BID_STEP_PERC), value),
       end := if a.end - now < BID_ADD_BLOCKS then WrapAddU64(now, BID_ADD_BLOCKS) else a.end)
  }

  /** A bid is accepted exactly when every condition of `bid` holds. */
  lemma BidCheckAccepts(a: AuctionInfo, bidder: AccountId, value: Balance, now: BlockNumber)
    ensures BidCheck(a, bidder, value, now).Ok? <==>
              bidder != a.owner && a.start < now < a.end && value >= a.minimalBid
              && (a.lastBid.Some? ==> value > a.lastBid.value.1) && (a.lastBid.None? ==> value > 0)
              && value + value / 10 <= U128_MAX
  {
    BidStepIsATenth(value);
  }

  /**
   * An accepted bid becomes the last bid, the next minimal bid is its value
   * plus a tenth (so above it from a value of ten on), and the name,
   * start, owner, type and token stay as they were.
   */
  lemma PlacedRecord(a: AuctionInfo, bidder: AccountId, value: Balance, now: BlockNumber)
    requires now < a.end && now <= U64_MAX
    ensures Placed(a, bidder, value, now).lastBid == Some((bidder, value))
    ensures Placed(a, bidder, value, now).minimalBid == value + value / 10
    ensures value >= 10 ==> Placed(a, bidder, value, now).minimalBid > value
    ensures Placed(a, bidder, value, now).name == a.name && Placed(a, bidder, value, now).start == a.start
    ensures Placed(a, bidder, value, now).owner == a.owner && Placed(a, bidder, value, now).tokenId == a.tokenId
    ensures Placed(a, bidder, value, now).auctionType == a.auctionType
  {
    BidStepIsATenth(value);
  }

  /**
   * Anti-sniping: away from the `u64` limit a bid never moves the end
   * earlier, leaves at least `BID_ADD_BLOCKS` blocks after it, and leaves
   * the end alone when that many blocks were already left.
   */
  lemma PlacedEnd(a: AuctionInfo, bidder: AccountId, value: Balance, now: BlockNumber)
    requires now < a.end && now + BID_ADD_BLOCKS <= U64_MAX
    ensures Placed(a, bidder, value, now).end >= a.end
    ensures Placed(a, bidder, value, now).end >= now + BID_ADD_BLOCKS
    ensures a.end - now >= BID_ADD_BLOCKS ==> Placed(a, bidder, value, now).end == a.end
    ensures a.end - now < BID_ADD_BLOCKS ==> Placed(a, bidder, value, now).end == now + BID_ADD_BLOCKS
  {
  }

  /**
   * Within `BID_ADD_BLOCKS` of the `u64` limit the extension wraps
   * around, and a bid moves the end of the auction into the past.
   */
  lemma PlacedNearBlockLimitEndsEarlier()
    ensures Placed(AuctionInfo([1], None, 0, U64_MAX, 1, English, (0, 0), 1), 2, 5, U64_MAX - 5).end == 4
  {
  }

  /** After an accepted bid, another bid on the same auction has to be higher. */
  lemma NextBidIsHigher(a: AuctionInfo, bidder: AccountId, value: Balance, now: BlockNumber,
                        bidder2: AccountId, value2: Balance, now2: BlockNumber)
    requires now < a.end && now <= U64_MAX
    requires BidCheck(Placed(a, bidder, value, now), bidder2, value2, now2).Ok?
    ensures value2 > value && value2 >= value + value / 10
  {
    PlacedRecord(a, bidder, value, now);
    BidCheckAccepts(Placed(a, bidder, value, now), bidder2, value2, now2);
  }

  // ----- the pallet -----

  /** The pallet's storage, rewritten in place by `new_auction`, `remove_auction` and `bid`. */
  class AuctionPallet {
    var auctions: map<AuctionId, AuctionInfo>
    var nextAuctionId: AuctionId
    var auctionEndTime: set<(BlockNumber, AuctionId)>
    var auctionOwnerById: map<AuctionId, AccountId>

    /**
     * Every live auction has an id below `NextAuctionId` and its owner
     * recorded by id, and the end-time index holds only ids handed out.
     */
    ghost predicate Valid()
      reads this
    {
      nextAuctionId <= U64_MAX
      && auctionOwnerById.Keys == auctions.Keys
      && (forall id | id in auctions :: auctionOwnerById[id] == auctions[id].owner)
      && (forall id | id in auctions :: id < nextAuctionId)
      && (forall e | e in auctionEndTime :: e.1 < nextAuctionId)
    }

    /** The genesis state: no auctions, the first id is zero. */
    constructor ()
      ensures Valid() && auctions == map[] && nextAuctionId == 0 && auctionEndTime == {}
    {
      auctions := map[];
      nextAuctionId := 0;
      auctionEndTime := {};
      auctionOwnerById := map[];
    }

    /**
     * `new_auction`: after the creation check, takes the next auction id
     * and advances it (failing when it would overflow), then records the
     * auction, its owner and its end in the end-time index.
     */
    method NewAuction(info: AuctionInfo, now: BlockNumber, isOwner: bool, nftLocked: Option<bool>)
      returns (r: Result<AuctionId>)
      requires info.start <= U64_MAX
      modifies this
      ensures CheckNewAuction(info, now, isOwner, nftLocked).Err? ==>
                r == Err(CheckNewAuction(info, now, isOwner, nftLocked).error)
      ensures CheckNewAuction(info, now, isOwner, nftLocked).Ok? && old(nextAuctionId) >= U64_MAX ==>
                r == Err(NoAvailableAuctionId)
      ensures r.Ok? <==> CheckNewAuction(info, now, isOwner, nftLocked).Ok? && old(nextAuctionId) < U64_MAX
      ensures r.Ok? ==> r.value == old(nextAuctionId) && nextAuctionId == old(nextAuctionId) + 1
                        && auctions == old(auctions)[r.value := info]
                        && auctionOwnerById == old(auctionOwnerById)[r.value := info.owner]
                        && auctionEndTime == old(auctionEndTime) + {(info.end, r.value)}
      ensures r.Err? ==> unchanged(this)
      ensures old(Valid()) ==> Valid()
      ensures old(Valid()) && r.Ok? ==> r.value !in old(auctions)
    {
      var checked := CheckNewAuction(info, now, isOwner, nftLocked);
      if checked.Err? {
        r := Err(checked.error);
      } else if nextAuctionId + 1 > U64_MAX {
        r := Err(NoAvailableAuctionId);
      } else {
        var id := nextAuctionId;
        nextAuctionId := nextAuctionId + 1;
        auctions := auctions[id := info];
        auctionOwnerById := auctionOwnerById[id := info.owner];
        auctionEndTime := auctionEndTime + {(info.end, id)};
        r := Ok(id);
      }
    }

    /**
     * `remove_auction`: an auction that has not started yet is deleted
     * together with its owner entry; its end-time entry stays.
     */
    method RemoveAuction(id: AuctionId, now: BlockNumber) returns (r: Result<()>)
      modifies this
      ensures id !in old(auctions) ==> r == Err(AuctionNotExist)
      ensures id in old(auctions) && now >= old(auctions)[id].start ==> r == Err(AuctionAlreadyStarted)
      ensures r.Ok? <==> id in old(auctions) && now < old(auctions)[id].start
      ensures r.Ok? ==> auctions == old(auctions) - {id} && auctionOwnerById == old(auctionOwnerById) - {id}
                        && auctionEndTime == old(auctionEndTime) && nextAuctionId == old(nextAuctionId)
      ensures r.Err? ==> unchanged(this)
      ensures old(Valid()) ==> Valid()
    {
      if id !in auctions {
        r := Err(AuctionNotExist);
      } else if !(now < auctions[id].start) {
        r := Err(AuctionAlreadyStarted);
      } else {
        auctionOwnerById := auctionOwnerById - {id};
        auctions := auctions - {id};
        r := Ok(());
      }
    }

    /**
     * `bid`: checks the bid against the auction, then records it as the
     * last bid, raises the minimal bid and, when fewer than
     * `BID_ADD_BLOCKS` blocks are left, extends the auction. The end-time
     * index keeps the original end.
     */
    method Bid(bidder: AccountId, id: AuctionId, value: Balance, now: BlockNumber) returns (r: Result<()>)
      requires now <= U64_MAX
      modifies this
      ensures id !in old(auctions) ==> r == Err(AuctionNotExist)
      ensures id in old(auctions) ==> r == BidCheck(old(auctions)[id], bidder, value, now)
      ensures r.Ok? ==> id in old(auctions) && now < old(auctions)[id].end
                        && auctions == old(auctions)[id := Placed(old(auctions)[id], bidder, value, now)]
      ensures r.Ok? ==> auctionEndTime == old(auctionEndTime) && auctionOwnerById == old(auctionOwnerById)
                        && nextAuctionId == old(nextAuctionId)
      ensures r.Err? ==> unchanged(this)
      ensures old(Valid()) ==> Valid()
    {
      if id !in auctions {
        r := Err(AuctionNotExist);
      } else {
        var auction := auctions[id];
        if bidder == auction.owner {
          r := Err(BidOnOwnAuction);
        } else if now <= auction.start {
          r := Err(AuctionNotStarted);
        } else if now >= auction.end {
          r := Err(AuctionAlreadyConcluded);
        } else if value < auction.minimalBid {
          r := Err(InvalidBidPrice);
        } else if auction.lastBid.Some? && value <= auction.lastBid.value.1 {
          r := Err(InvalidBidPrice);
        } else if auction.lastBid.None? && value == 0 {
          r := Err(InvalidBidPrice);
        } else {
          var step := PermillMulFloor(PermillFromPercent(BID_STEP_PERC), value);
          if value + step > U128_MAX {
            r := Err(BidOverflow);
          } else {
            auction := auction.(lastBid := Some((bidder, value)));
            auction := auction.(minimalBid := value + step);
            var timeLeft := auction.end - now;
            if timeLeft < BID_ADD_BLOCKS {
              auction := auction.(end := WrapAddU64(now, BID_ADD_BLOCKS));
            }
            auctions := auctions[id := auction];
            r := Ok(());
          }
        }
      }
    }
  }
}
