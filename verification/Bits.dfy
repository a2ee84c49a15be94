/** Numbers and bytes as bit strings, most significant bit first. */
module Bits {
  import opened Bytes

  function Pow2(n: nat): (p: nat)
    ensures p > 0
  {
    if n == 0 then 1 else 2 * Pow2(n - 1)
  }

  /** The low len bits of x. */
  function NatBits(x: nat, len: nat): (s: seq<bool>)
    ensures |s| == len
    decreases len
  {
    if len == 0 then [] else NatBits(x / 2, len - 1) + [x % 2 == 1]
  }

  function BitsNat(s: seq<bool>): (x: nat)
    ensures x < Pow2(|s|)
  {
    if s == [] then 0 else 2 * BitsNat(s[..|s| - 1]) + if s[|s| - 1] then 1 else 0
  }

  lemma {:induction false} NatRoundTrip(x: nat, len: nat)
    requires x < Pow2(len)
    ensures BitsNat(NatBits(x, len)) == x
    decreases len
  {
    if len > 0 {
      NatRoundTrip(x / 2, len - 1);
      assert NatBits(x, len)[..len - 1] == NatBits(x / 2, len - 1);
    }
  }

  lemma {:induction false} BitsRoundTrip(s: seq<bool>)
    ensures NatBits(BitsNat(s), |s|) == s
  {
    if s != [] {
      BitsRoundTrip(s[..|s| - 1]);
      assert s == s[..|s| - 1] + [s[|s| - 1]];
    }
  }

  /** x >>> i */
  function ShiftRight(x: nat, i: nat): nat {
    if i == 0 then x else ShiftRight(x, i - 1) / 2
  }

  function ByteBits(b: bv8): (s: seq<bool>)
    ensures |s| == 8
  {
    NatBits(b as nat, 8)
  }

  /** All the bits of a byte string. */
  function Stream(bytes: seq<bv8>): (s: seq<bool>)
    ensures |s| == 8 * |bytes|
  {
    if bytes == [] then [] else Stream(bytes[..|bytes| - 1]) + ByteBits(bytes[|bytes| - 1])
  }

  /** Groups of eight bits as bytes; up to seven bits at the end are dropped. */
  function Pack(s: seq<bool>): (bytes: seq<bv8>)
    ensures |bytes| == |s| / 8
  {
    if |s| < 8 then []
    else
      var n := 8 * (|s| / 8 - 1);
      Pack(s[..n]) + [PackByte(s[n..n + 8])]
  }

  function PackByte(s: seq<bool>): bv8
    requires |s| == 8
  {
    assert Pow2(8) == 256;
    BitsNat(s) as bv8
  }

  lemma PackByteBits(b: bv8)
    ensures PackByte(ByteBits(b)) == b
  {
    assert Pow2(8) == 256;
    NatRoundTrip(b as nat, 8);
  }

  lemma ByteBitsPack(s: seq<bool>)
    requires |s| == 8
    ensures ByteBits(PackByte(s)) == s
  {
    hide NatBits;
    assert Pow2(8) == 256;
    ByteOfNat(BitsNat(s));
    BitsRoundTrip(s);
  }

  lemma {:induction false} PackStream(bytes: seq<bv8>)
    ensures Pack(Stream(bytes)) == bytes
  {
    hide PackByte, ByteBits, BitsNat, NatBits, Pack, Stream;
    if bytes == [] {
      PackNothing();
    } else {
      var init, b := bytes[..|bytes| - 1], bytes[|bytes| - 1];
      var s := Stream(bytes);
      assert bytes == init + [b];
      StreamPush(init, b);
      PackStream(init);
      PackByteBits(b);
      PackLast(s);
      assert s[..|s| - 8] == Stream(init) && s[|s| - 8..] == ByteBits(b);
    }
  }

  lemma PackNothing()
    ensures Pack(Stream([])) == []
  {}

  lemma StreamPush(bytes: seq<bv8>, b: bv8)
    ensures Stream(bytes + [b]) == Stream(bytes) + ByteBits(b)
  {
    hide ByteBits;
    assert (bytes + [b])[..|bytes|] == bytes;
  }

  lemma PackLast(s: seq<bool>)
    requires |s| % 8 == 0 && s != []
    ensures Pack(s) == Pack(s[..|s| - 8]) + [PackByte(s[|s| - 8..])]
  {
    hide PackByte;
    assert s[|s| - 8..|s|] == s[|s| - 8..];
  }

  lemma OneByteLess(n: nat)
    requires n % 8 == 0 && n > 0
    ensures n >= 8 && (n - 8) % 8 == 0
  {}

  lemma {:induction false} StreamPack(s: seq<bool>)
    requires |s| % 8 == 0
    ensures Stream(Pack(s)) == s
  {
    hide PackByte, ByteBits, BitsNat, NatBits, Pow2;
    if s != [] {
      hide *;
      OneByteLess(|s|);
      var init, last := s[..|s| - 8], s[|s| - 8..];
      PackLast(s);
      StreamPack(init);
      ByteBitsPack(last);
      StreamPush(Pack(init), PackByte(last));
      assert s == init + last;
    }
  }
}
