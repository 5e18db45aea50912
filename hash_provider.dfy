/**
 * The hash provider the V2 tools draw their randomness from, and the slot
 * roller of the tools iteration, which rolls with it.
 *
 * The provider's own source is not part of this model. It is modelled after
 * its use: a 32-byte hash read one byte at a time by `get_hash_byte`, the
 * cursor wrapping at the end, and `full_hash(n)`, a further 32-byte hash
 * that depends on `n` but not on the cursor. Both hashes are inputs: the
 * provider is built from them.
 *
 * The tools iteration's slot roller (tools/v2/slot_roller.rs) is not part of
 * this model either; its roll is taken to be that of mint/v2/slot_roller.rs,
 * with the four bytes of the roll word drawn from the provider.
 */
module HashProviders {
  import opened Bits
  import opened SlotRoller

  /** The length of the provider's hash, the `32` of `HashProvider<T, 32>`. */
  const HASH_LENGTH: nat := 32

  /** The `k` bytes of `hash` from `start` on, wrapping after the last byte. */
  function Window(hash: seq<Byte>, start: nat, k: nat): (r: seq<Byte>)
    requires |hash| == HASH_LENGTH
    ensures |r| == k
    ensures forall j | 0 <= j < k :: r[j] == hash[(start + j) % HASH_LENGTH]
  {
    seq(k, j requires 0 <= j => hash[(start + j) % HASH_LENGTH])
  }

  /** Reducing the start modulo the hash length first changes no index. */
  lemma WrapAbsorbs(a: nat, j: nat)
    ensures (a % HASH_LENGTH + j) % HASH_LENGTH == (a + j) % HASH_LENGTH
  {
    var q := a / HASH_LENGTH;
    assert a == HASH_LENGTH * q + a % HASH_LENGTH;
  }

  /** A window of `k1 + k2` bytes is the window of `k1` bytes, then the `k2` bytes after it. */
  lemma WindowSplit(hash: seq<Byte>, start: nat, k1: nat, k2: nat)
    requires |hash| == HASH_LENGTH
    ensures Window(hash, start, k1 + k2) == Window(hash, start, k1) + Window(hash, (start + k1) % HASH_LENGTH, k2)
  {
    var whole, first, rest := Window(hash, start, k1 + k2), Window(hash, start, k1),
                              Window(hash, (start + k1) % HASH_LENGTH, k2);
    forall j | 0 <= j < k2
      ensures whole[k1 + j] == rest[j]
    {
      WrapAbsorbs(start + k1, j);
    }
    assert whole == first + rest;
  }

  /** A slice of a window is the window that starts where the slice does. */
  lemma WindowSlice(hash: seq<Byte>, start: nat, k: nat, d: nat, e: nat)
    requires |hash| == HASH_LENGTH && d <= e <= k
    ensures Window(hash, start, k)[d..e] == Window(hash, (start + d) % HASH_LENGTH, e - d)
  {
    var slice, window := Window(hash, start, k)[d..e], Window(hash, (start + d) % HASH_LENGTH, e - d);
    forall j | 0 <= j < e - d
      ensures slice[j] == window[j]
    {
      WrapAbsorbs(start + d, j);
    }
  }

  class HashProvider {
    /** The hash the bytes are drawn from. */
    const hash: seq<Byte>
    /** `full_hash(n)`, for every `n`. */
    const fullHashes: nat -> seq<Byte>
    /** The index of the next byte to draw. */
    var currentIndex: nat

    ghost predicate Valid()
      reads this
    {
      |hash| == HASH_LENGTH && currentIndex < HASH_LENGTH &&
      forall n: nat :: |fullHashes(n)| == HASH_LENGTH
    }

    /** `HashProvider::new`: draws start at the first byte. */
    constructor (hash: seq<Byte>, fullHashes: nat -> seq<Byte>)
      requires |hash| == HASH_LENGTH && forall n: nat :: |fullHashes(n)| == HASH_LENGTH
      ensures Valid() && currentIndex == 0
      ensures this.hash == hash && this.fullHashes == fullHashes
    {
      this.hash := hash;
      this.fullHashes := fullHashes;
      currentIndex := 0;
    }

    /** The `k` bytes the next `k` draws give, in order. */
    function Ahead(k: nat): (r: seq<Byte>)
      reads this
      requires Valid()
      ensures |r| == k
      ensures forall j | 0 <= j < k :: r[j] == hash[(currentIndex + j) % HASH_LENGTH]
    {
      Window(hash, currentIndex, k)
    }

    /** `get_hash_byte`: the byte under the cursor; the cursor moves on, wrapping after the last byte. */
    method GetHashByte() returns (b: Byte)
      requires Valid()
      modifies this
      ensures Valid()
      ensures b == old(hash[currentIndex]) && b == old(Ahead(1))[0]
      ensures currentIndex == (old(currentIndex) + 1) % HASH_LENGTH
    {
      b := hash[currentIndex];
      currentIndex := (currentIndex + 1) % HASH_LENGTH;
    }

    /** `full_hash(n)`: the provider's `n`-th full hash; the cursor does not move. */
    function FullHash(n: nat): (r: seq<Byte>)
      reads this
      requires Valid()
      ensures |r| == HASH_LENGTH
    {
      fullHashes(n)
    }
  }

  /** Drawing `k` bytes one after another gives `Ahead(k)` and moves the cursor `k` places. */
  method DrawBytes(provider: HashProvider, k: nat) returns (bytes: seq<Byte>)
    requires provider.Valid()
    modifies provider
    ensures provider.Valid()
    ensures bytes == old(provider.Ahead(k))
    ensures provider.currentIndex == (old(provider.currentIndex) + k) % HASH_LENGTH
  {
    ghost var start := provider.currentIndex;
    ghost var ahead := provider.Ahead(k);
    bytes := [];
    var i := 0;
    while i < k
      invariant 0 <= i <= k
      invariant provider.Valid()
      invariant provider.currentIndex == (start + i) % HASH_LENGTH
      invariant bytes == ahead[..i]
    {
      var b := provider.GetHashByte();
      bytes := bytes + [b];
      i := i + 1;
    }
  }

  /**
   * `roll_on` of the tools iteration: the roll word is the next four bytes of
   * the provider, and the roll is that of `SlotRoller.RollOn`.
   */
  method RollOnWith<S>(slots: seq<(S, U32)>, default: S, provider: HashProvider) returns (item: S)
    requires provider.Valid()
    modifies provider
    ensures provider.Valid()
    ensures item == Rolled(slots, RollNumber(old(provider.Ahead(4))), default)
    ensures provider.currentIndex == (old(provider.currentIndex) + 4) % HASH_LENGTH
  {
    var bytes := DrawBytes(provider, 4);
    item := RollOn(slots, default, bytes);
  }

  /** `roll_on_pack_type` of the tools iteration: `RollOnWith` on the table of the pack. */
  method RollOnPackTypeWith<S>(packType: PackType, onMaterial: seq<(S, U32)>, onEquipment: seq<(S, U32)>,
                               onSpecial: seq<(S, U32)>, default: S, provider: HashProvider) returns (item: S)
    requires provider.Valid()
    modifies provider
    ensures provider.Valid()
    ensures item == Rolled(TableFor(packType, onMaterial, onEquipment, onSpecial),
                           RollNumber(old(provider.Ahead(4))), default)
    ensures provider.currentIndex == (old(provider.currentIndex) + 4) % HASH_LENGTH
  {
    item := RollOnWith(TableFor(packType, onMaterial, onEquipment, onSpecial), default, provider);
  }
}
