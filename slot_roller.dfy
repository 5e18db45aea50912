/**
 * The weighted slot roller (mint/v2/slot_roller.rs). A table of slots pairs
 * each item with a weight in thousandths; a roll between 1 and 1000 walks
 * the table subtracting weights (saturating at 0) and stops at the first
 * slot that brings it to 0, which is the first slot whose running total of
 * weights reaches the roll. A roll past the table's total gives the item
 * type's default.
 */
module SlotRoller {
  import opened Bits

  /** `PackType`: which of three tables a pack rolls on. */
  datatype PackType = Material | Equipment | Special

  /** The sum of the weights of the first `n` slots: the running total after slot `n - 1`. */
  function Total<S>(slots: seq<(S, U32)>, n: nat): nat
    requires n <= |slots|
  {
    if n == 0 then 0 else Total(slots, n - 1) + slots[n - 1].1
  }

  /** The whole total of a table of up to eight slots, written out. */
  lemma TotalOfShortTable<S>(slots: seq<(S, U32)>)
    requires 1 <= |slots| <= 8
    ensures var w: seq<nat> := seq(8, k requires 0 <= k < 8 => if k < |slots| then slots[k].1 else 0);
            Total(slots, |slots|) == w[0] + w[1] + w[2] + w[3] + w[4] + w[5] + w[6] + w[7]
  {
    var n := |slots|;
    assert Total(slots, 1) == slots[0].1;
    assert n >= 2 ==> Total(slots, 2) == Total(slots, 1) + slots[1].1;
    assert n >= 3 ==> Total(slots, 3) == Total(slots, 2) + slots[2].1;
    assert n >= 4 ==> Total(slots, 4) == Total(slots, 3) + slots[3].1;
    assert n >= 5 ==> Total(slots, 5) == Total(slots, 4) + slots[4].1;
    assert n >= 6 ==> Total(slots, 6) == Total(slots, 5) + slots[5].1;
    assert n >= 7 ==> Total(slots, 7) == Total(slots, 6) + slots[6].1;
    assert n >= 8 ==> Total(slots, 8) == Total(slots, 7) + slots[7].1;
  }

  /** Running totals never decrease along the table. */
  lemma {:induction false} TotalMonotone<S>(slots: seq<(S, U32)>, m: nat, n: nat)
    requires m <= n <= |slots|
    ensures Total(slots, m) <= Total(slots, n)
    decreases n - m
  {
    if m < n {
      TotalMonotone(slots, m, n - 1);
    }
  }

  /** Slot `i` is where `roll` lands: the first slot whose running total reaches the roll. */
  predicate Selects<S>(slots: seq<(S, U32)>, roll: nat, i: nat)
  {
    i < |slots| && roll <= Total(slots, i + 1) && forall j | 1 <= j <= i :: Total(slots, j) < roll
  }

  /** The index of the first slot at or after `from` whose running total reaches `roll`, or `|slots|` if none does. */
  function FirstReaching<S>(slots: seq<(S, U32)>, roll: nat, from: nat): (i: nat)
    requires from <= |slots|
    ensures from <= i <= |slots|
    decreases |slots| - from
  {
    if from == |slots| then |slots|
    else if roll <= Total(slots, from + 1) then from
    else FirstReaching(slots, roll, from + 1)
  }

  /** What a roll gives: the item of the slot it lands on, or the default when it lands on none. */
  function Rolled<S>(slots: seq<(S, U32)>, roll: nat, default: S): S
  {
    var i := FirstReaching(slots, roll, 0);
    if i < |slots| then slots[i].0 else default
  }

  /**
   * The search from `from` finds the first reaching slot when every slot
   * before `from` falls short, and `|slots|` exactly when no slot reaches.
   */
  lemma {:induction false} FirstReachingFinds<S>(slots: seq<(S, U32)>, roll: nat, from: nat)
    requires from <= |slots|
    requires forall j | 1 <= j <= from :: Total(slots, j) < roll
    ensures var i := FirstReaching(slots, roll, from);
            (i < |slots| ==> Selects(slots, roll, i)) &&
            (i == |slots| <==> forall j | 1 <= j <= |slots| :: Total(slots, j) < roll)
    decreases |slots| - from
  {
    if from < |slots| && roll > Total(slots, from + 1) {
      FirstReachingFinds(slots, roll, from + 1);
    }
  }

  /**
   * `Rolled` is the first-reaching rule, both ways: it gives the item of the
   * slot the roll selects, and the default exactly when the roll exceeds the
   * table's total.
   */
  lemma RolledIsFirstReaching<S>(slots: seq<(S, U32)>, roll: nat, default: S)
    ensures forall i: nat | Selects(slots, roll, i) :: Rolled(slots, roll, default) == slots[i].0
    ensures |slots| == 0 || roll > Total(slots, |slots|) ==> Rolled(slots, roll, default) == default
    ensures |slots| > 0 && roll <= Total(slots, |slots|) ==> Selects(slots, roll, FirstReaching(slots, roll, 0))
  {
    FirstReachingFinds(slots, roll, 0);
    var k := FirstReaching(slots, roll, 0);
    forall i: nat | Selects(slots, roll, i)
      ensures Rolled(slots, roll, default) == slots[i].0
    {
      TotalMonotone(slots, i + 1, |slots|);
      assert roll <= Total(slots, |slots|);
      assert k < |slots|;
      SelectedSlotIsUnique(slots, roll, i, k);
    }
    if roll > Total(slots, |slots|) {
      forall j | 1 <= j <= |slots|
        ensures Total(slots, j) < roll
      {
        TotalMonotone(slots, j, |slots|);
      }
      assert k == |slots|;
    } else if |slots| > 0 {
      assert !(Total(slots, |slots|) < roll);
      assert k < |slots|;
    }
  }

  /** At most one slot is selected by a roll. */
  lemma SelectedSlotIsUnique<S>(slots: seq<(S, U32)>, roll: nat, i: nat, k: nat)
    requires Selects(slots, roll, i)
    requires k < |slots| && Selects(slots, roll, k)
    ensures i == k
  {
  }

  /**
   * For a roll of at least 1, slot `i` is selected exactly when the roll
   * lies above the total before it and within the total after it.
   */
  lemma SelectsIsAnInterval<S>(slots: seq<(S, U32)>, roll: nat, i: nat)
    requires 1 <= roll && i < |slots|
    ensures Selects(slots, roll, i) <==> Total(slots, i) < roll <= Total(slots, i + 1)
  {
    if Total(slots, i) < roll <= Total(slots, i + 1) {
      forall j | 1 <= j <= i
        ensures Total(slots, j) < roll
      {
        TotalMonotone(slots, j, i);
      }
    }
  }

  /** A roll of at least 1 never lands on a slot of weight 0. */
  lemma ZeroWeightNeverSelected<S>(slots: seq<(S, U32)>, roll: nat, i: nat)
    requires 1 <= roll && Selects(slots, roll, i)
    ensures slots[i].1 > 0
  {
    SelectsIsAnInterval(slots, roll, i);
  }

  /** The rolls from 1 to a table's total each select a slot; none gives the default. */
  lemma RollWithinTotalSelects<S>(slots: seq<(S, U32)>, roll: nat)
    requires 1 <= roll <= Total(slots, |slots|)
    ensures FirstReaching(slots, roll, 0) < |slots|
    ensures Selects(slots, roll, FirstReaching(slots, roll, 0))
  {
    FirstReachingFinds(slots, roll, 0);
  }

  /**
   * A roll from 1 to the table's total gives the item of a slot of non-zero
   * weight: the slot `FirstReaching` finds.
   */
  lemma RolledSlotHasWeight<S>(slots: seq<(S, U32)>, roll: nat, default: S)
    requires 1 <= roll <= Total(slots, |slots|)
    ensures FirstReaching(slots, roll, 0) < |slots|
    ensures slots[FirstReaching(slots, roll, 0)].1 > 0
    ensures Rolled(slots, roll, default) == slots[FirstReaching(slots, roll, 0)].0
  {
    RollWithinTotalSelects(slots, roll);
    ZeroWeightNeverSelected(slots, roll, FirstReaching(slots, roll, 0));
  }

  /** The rolls in `(a, b]`. */
  function Rolls(a: nat, b: nat): set<nat>
  {
    set r: nat | a < r <= b && InRange(a, b, r)
  }

  predicate InRange(a: nat, b: nat, r: nat)
  {
    a < r <= b
  }

  /** The number of integers in `(a, b]` is `b - a`. */
  lemma {:induction false} IntervalSize(a: nat, b: nat)
    requires a <= b
    ensures |Rolls(a, b)| == b - a
    decreases b - a
  {
    if a < b {
      IntervalSize(a, b - 1);
      assert Rolls(a, b) == Rolls(a, b - 1) + {b};
    }
  }

  /**
   * Among the rolls 1 to 1000 of a table whose weights sum to 1000, slot `i`
   * is selected by exactly as many rolls as its weight.
   */
  lemma SlotShareIsItsWeight<S>(slots: seq<(S, U32)>, i: nat)
    requires i < |slots| && Total(slots, |slots|) == 1000
    ensures |set r: nat | r in Rolls(0, 1000) && Selects(slots, r, i)| == slots[i].1
  {
    TotalMonotone(slots, i + 1, |slots|);
    forall r: nat | 1 <= r <= 1000
      ensures Selects(slots, r, i) <==> Total(slots, i) < r <= Total(slots, i + 1)
    {
      SelectsIsAnInterval(slots, r, i);
    }
    assert (set r: nat | r in Rolls(0, 1000) && Selects(slots, r, i)) == Rolls(Total(slots, i), Total(slots, i + 1));
    IntervalSize(Total(slots, i), Total(slots, i + 1));
  }

  /** `u32::from_ne_bytes` on a little-endian target. */
  function LittleEndianU32(b0: Byte, b1: Byte, b2: Byte, b3: Byte): (r: U32)
    ensures r % 256 == b0
  {
    b0 + 256 * (b1 + 256 * (b2 + 256 * b3))
  }

  /**
   * `roll_number`: the first four bytes of the random hash read as a `u32`,
   * reduced modulo 1000, plus 1. The slice of the first four bytes is taken
   * before the conversion, so a hash shorter than four bytes would panic
   * there; the runtime's hash is 32 bytes, and callers pass at least four.
   * The hash is an input of the model.
   */
  function RollNumber(randomHash: seq<Byte>): (r: U32)
    requires |randomHash| >= 4
    ensures 1 <= r <= 1000
  {
    LittleEndianU32(randomHash[0], randomHash[1], randomHash[2], randomHash[3]) % 1000 + 1
  }

  /** Every roll from 1 to 1000 is the roll of some hash: the one whose first word is the roll less one. */
  lemma RollNumberReachesEveryRoll(roll: nat)
    requires 1 <= roll <= 1000
    ensures RollNumber([(roll - 1) % 256, (roll - 1) / 256, 0, 0]) == roll
  {
    var word := roll - 1;
    assert word == 256 * (word / 256) + word % 256;
    assert LittleEndianU32(word % 256, word / 256, 0, 0) == word;
    assert word % 1000 == word;
  }

  /**
   * `roll_on`: starting from the default, subtract each slot's weight from
   * the roll, saturating at 0, and stop at the slot that brings it to 0.
   */
  method RollOn<S>(slots: seq<(S, U32)>, default: S, randomHash: seq<Byte>) returns (item: S)
    requires |randomHash| >= 4
    ensures item == Rolled(slots, RollNumber(randomHash), default)
  {
    item := default;
    var roll: nat := RollNumber(randomHash);
    ghost var rolled := roll;
    var k := 0;
    while k < |slots|
      invariant k <= |slots|
      invariant roll == SatSub(rolled, Total(slots, k))
      invariant k > 0 ==> Total(slots, k) < rolled
      invariant FirstReaching(slots, rolled, 0) == FirstReaching(slots, rolled, k)
      invariant item == default
    {
      roll := SatSub(roll, slots[k].1);
      if roll == 0 {
        item := slots[k].0;
        break;
      }
      k := k + 1;
    }
  }

  /** The table a pack rolls on. */
  function TableFor<S>(packType: PackType, onMaterial: seq<(S, U32)>, onEquipment: seq<(S, U32)>,
                       onSpecial: seq<(S, U32)>): seq<(S, U32)>
  {
    match packType
    case Material => onMaterial
    case Equipment => onEquipment
    case Special => onSpecial
  }

  /** `roll_on_pack_type`: `roll_on` on the table of the pack. */
  method RollOnPackType<S>(packType: PackType, onMaterial: seq<(S, U32)>, onEquipment: seq<(S, U32)>,
                           onSpecial: seq<(S, U32)>, default: S, randomHash: seq<Byte>) returns (item: S)
    requires |randomHash| >= 4
    ensures packType == Material ==> item == Rolled(onMaterial, RollNumber(randomHash), default)
    ensures packType == Equipment ==> item == Rolled(onEquipment, RollNumber(randomHash), default)
    ensures packType == Special ==> item == Rolled(onSpecial, RollNumber(randomHash), default)
  {
    var slots := TableFor(packType, onMaterial, onEquipment, onSpecial);
    item := RollOn(slots, default, randomHash);
  }
}
