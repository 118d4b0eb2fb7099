/** Unsigned machine words, the two bytes that matter inside JSON text, and the form of digests. */
module Words {
  import opened Wrappers

  newtype byte = x: int | 0 <= x < 256

  const BACKSLASH: byte := 0x5C
  const QUOTE: byte := 0x22

  const U32_MAX: nat := 0xFFFF_FFFF
  const U64_MAX: nat := 0xFFFF_FFFF_FFFF_FFFF

  type U32 = n: nat | n <= U32_MAX
  type U64 = n: nat | n <= U64_MAX

  /** The text form of a SHA-256 digest. */
  predicate ValidDigest(d: string) {
    && |d| == 71
    && d[..7] == "sha256:"
    && forall i | 7 <= i < 71 :: '0' <= d[i] <= '9' || 'a' <= d[i] <= 'f'
  }

  function CheckedAdd(a: nat, b: nat): Option<nat> {
    if a + b <= U64_MAX then Some(a + b) else None
  }
}
