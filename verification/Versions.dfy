/** The version tables of the QR encoder (error correction level L, versions 1 to 20). */
module Versions {

  type Version = v: nat | 1 <= v <= 20 witness 1

  /** blocks1 blocks of data1 bytes, then blocks2 blocks of data2, each with ecPerBlock more. */
  datatype BlockSpec = BlockSpec(ecPerBlock: nat, blocks1: nat, data1: nat, blocks2: nat, data2: nat)

  function Ecl(v: Version): (s: BlockSpec)
    ensures 0 < s.ecPerBlock <= 30 && 0 < s.blocks1
  {
    match v
    case 1 => BlockSpec(7, 1, 19, 0, 0)
    case 2 => BlockSpec(10, 1, 34, 0, 0)
    case 3 => BlockSpec(15, 1, 55, 0, 0)
    case 4 => BlockSpec(20, 1, 80, 0, 0)
    case 5 => BlockSpec(26, 1, 108, 0, 0)
    case 6 => BlockSpec(18, 2, 68, 0, 0)
    case 7 => BlockSpec(20, 2, 78, 0, 0)
    case 8 => BlockSpec(24, 2, 97, 0, 0)
    case 9 => BlockSpec(30, 2, 116, 0, 0)
    case 10 => BlockSpec(18, 2, 68, 2, 69)
    case 11 => BlockSpec(20, 4, 81, 0, 0)
    case 12 => BlockSpec(24, 2, 92, 2, 93)
    case 13 => BlockSpec(26, 4, 107, 0, 0)
    case 14 => BlockSpec(30, 3, 115, 1, 116)
    case 15 => BlockSpec(22, 5, 87, 1, 88)
    case 16 => BlockSpec(24, 5, 98, 1, 99)
    case 17 => BlockSpec(28, 1, 107, 5, 108)
    case 18 => BlockSpec(30, 5, 120, 1, 121)
    case 19 => BlockSpec(28, 3, 113, 4, 114)
    case _ => BlockSpec(28, 3, 107, 5, 108)
  }

  /** Centre coordinates of the alignment patterns. */
  function Align(v: Version): seq<nat> {
    match v
    case 1 => []
    case 2 => [6, 18]
    case 3 => [6, 22]
    case 4 => [6, 26]
    case 5 => [6, 30]
    case 6 => [6, 34]
    case 7 => [6, 22, 38]
    case 8 => [6, 24, 42]
    case 9 => [6, 26, 46]
    case 10 => [6, 28, 50]
    case 11 => [6, 30, 54]
    case 12 => [6, 32, 58]
    case 13 => [6, 34, 62]
    case 14 => [6, 26, 46, 66]
    case 15 => [6, 26, 48, 70]
    case 16 => [6, 26, 50, 74]
    case 17 => [6, 30, 54, 78]
    case 18 => [6, 30, 56, 82]
    case 19 => [6, 30, 58, 86]
    case _ => [6, 34, 62, 90]
  }

  function TotalData(v: Version): nat {
    var s := Ecl(v);
    s.blocks1 * s.data1 + s.blocks2 * s.data2
  }

  /** Data and error correction bytes together. */
  function TotalBytes(v: Version): nat {
    var s := Ecl(v);
    TotalData(v) + (s.blocks1 + s.blocks2) * s.ecPerBlock
  }

  function CharCountBits(v: Version): nat {
    if v <= 9 then 8 else 16
  }

  function Size(v: Version): nat {
    17 + 4 * v
  }
}
