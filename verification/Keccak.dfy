/** 32-byte words, with keccak256 as an injective constructor: a digest equals
    another only when their preimages are equal, and never a plain number. */
module Keccak {
  datatype Word =
    | Num(n: nat)
    | Keccak(preimage: seq<Word>)   // keccak256(abi.encode(words...))
    | KeccakText(text: string)      // keccak256 of a string's bytes

  type Address = nat

  const ZERO: Word := Num(0)
  const MAX_UINT: nat := 0x1_0000000000000000_0000000000000000_0000000000000000_0000000000000000 - 1
}
