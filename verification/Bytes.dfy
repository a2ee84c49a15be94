/** Bytes as numbers and back. */
module Bytes {
  lemma ByteOfNat(x: nat)
    requires x < 256
    ensures (x as bv8) as nat == x
  {}

  lemma NatOfByte(a: bv8, b: bv8)
    ensures a as nat < 256
    ensures a as nat == b as nat <==> a == b
    ensures (a as nat) as bv8 == a
  {}
}
