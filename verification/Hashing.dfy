/** SHA-256 as the program uses it: text in, 64 lowercase hex digits out. */
module Hashing {
  import opened Text

  function Zeros(): (s: string)
    ensures IsHexDigest(s)
  {
    seq(64, _ => '0')
  }

  type Digest = s: string | IsHexDigest(s) witness Zeros()

  /**
   The digest of a text's UTF-8 bytes. Nothing is assumed about it beyond the
   shape of its result: results that need more say which collision they exclude.
   */
  const Sha256Hex: string -> Digest

  /** Two different texts with one digest. */
  predicate Collides(a: string, b: string) {
    a != b && Sha256Hex(a) == Sha256Hex(b)
  }
}
