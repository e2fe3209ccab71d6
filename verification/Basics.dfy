/** Small shared types: optional values, bytes and the idealised SHA-256 digest. */
module Basics {

  datatype Option<+T> = None | Some(value: T)

  newtype byte = x: int | 0 <= x < 256

  type Bytes = seq<byte>

  /** SHA-256 as an ideal hash: a digest is determined by, and determines, what was hashed. */
  datatype Digest = Sha256(preimage: Bytes)

  function Min(a: int, b: int): int {
    if a <= b then a else b
  }

  function Max(a: int, b: int): int {
    if a >= b then a else b
  }
}
