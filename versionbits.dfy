/** The 32-bit block version and the bits BIP 9 deployments signal on. Kept apart so that
    the bit-vector facts are proved without the rest of the template logic in view. */
module VersionBits {

  /** VersionBitsMask. */
  function Mask(bit: bv32): bv32
    requires bit < 32
  {
    (1 as bv32) << bit
  }

  /** `nVersion |= VersionBitsMask(bit)`. */
  function SetBit(v: bv32, bit: bv32): bv32
    requires bit < 32
  {
    v | Mask(bit)
  }

  /** `nVersion &= ~VersionBitsMask(bit)`. */
  function ClearBit(v: bv32, bit: bv32): bv32
    requires bit < 32
  {
    v & !Mask(bit)
  }

  /** The bit of `v` at position `bit`, in place (`v & VersionBitsMask(bit)`). */
  function BitOf(v: bv32, bit: bv32): bv32
    requires bit < 32
  {
    v & Mask(bit)
  }

  /** Setting a bit turns it on; clearing it turns it off. */
  lemma OwnBit(v: bv32, b: bv32)
    requires b < 32
    ensures BitOf(SetBit(v, b), b) == Mask(b)
    ensures BitOf(ClearBit(v, b), b) == 0
  {
  }

  /** Distinct deployment bits have disjoint masks. */
  lemma DisjointMasks(b: bv32, k: bv32)
    requires b < 32 && k < 32 && b != k
    ensures Mask(b) & Mask(k) == 0
  {
  }

  lemma OrDisjoint(v: bv32, m: bv32, n: bv32)
    requires m & n == 0
    ensures (v | m) & n == v & n
  {
  }

  lemma AndNotDisjoint(v: bv32, m: bv32, n: bv32)
    requires m & n == 0
    ensures (v & !m) & n == v & n
  {
  }

  /** Setting one bit leaves every other bit as it was. */
  lemma OtherBitSet(v: bv32, b: bv32, k: bv32)
    requires b < 32 && k < 32 && b != k
    ensures BitOf(SetBit(v, b), k) == BitOf(v, k)
  {
    DisjointMasks(b, k);
    OrDisjoint(v, Mask(b), Mask(k));
  }

  /** Clearing one bit leaves every other bit as it was. */
  lemma OtherBitCleared(v: bv32, b: bv32, k: bv32)
    requires b < 32 && k < 32 && b != k
    ensures BitOf(ClearBit(v, b), k) == BitOf(v, k)
  {
    DisjointMasks(b, k);
    AndNotDisjoint(v, Mask(b), Mask(k));
  }
}
