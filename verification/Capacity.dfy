/** The data code words in closed form: what stands in each byte, and how much each version holds. */
module Capacity {
  import opened Bits
  import opened Bytes
  import opened Versions
  import opened Encodation

  /** Table 7 of ISO/IEC 18004:2015, byte mode, level L. */
  const BYTES_HELD: seq<nat> :=
    [17, 32, 53, 78, 106, 134, 154, 192, 230, 271, 321, 367, 425, 458, 520, 586, 644, 718, 792, 858]

  lemma FitsTable(byteLen: nat, v: Version)
    ensures Fits(byteLen, v) <==> byteLen <= BYTES_HELD[v - 1]
  {}

  /** Bit i of a number written in len places, most significant first. */
  lemma {:induction false} NatBitsAt(x: nat, len: nat, i: nat)
    requires i < len
    ensures NatBits(x, len)[i] <==> x / Pow2(len - 1 - i) % 2 == 1
    decreases len
  {
    if i < len - 1 {
      NatBitsAt(x / 2, len - 1, i);
      HalfPower(x, len - 2 - i);
    }
  }

  lemma HalfPower(x: nat, k: nat)
    ensures x / 2 / Pow2(k) == x / Pow2(k + 1)
  {
    var p := Pow2(k);
    var y := x / 2;
    assert y == p * (y / p) + y % p;
    assert 2 * p * (y / p) == 2 * (p * (y / p));
    DivisionIs(x, 2 * p, y / p, 2 * (y % p) + x % 2);
  }

  lemma MulMonotone(a: nat, x: nat, y: nat)
    requires x <= y
    ensures a * x <= a * y
  {}

  lemma DivisionIs(x: nat, d: nat, q: nat, r: nat)
    requires d > 0 && x == d * q + r && r < d
    ensures x / d == q
  {
    var q' := x / d;
    assert d * (q' + 1) == d * q' + d && d * (q + 1) == d * q + d;
    if q' < q { MulMonotone(d, q' + 1, q); }
    if q < q' { MulMonotone(d, q + 1, q'); }
  }

  // ---- The code words, byte by byte --------------------------------------------

  /** The byte of two halves. */
  function Halves(hi: nat, lo: nat): bv8
    requires hi < 16 && lo < 16
  {
    (16 * hi + lo) as bv8
  }

  function High(b: bv8): (h: nat)
    ensures h < 16
  {
    NatOfByte(b, 0);
    (b as nat) / 16
  }

  function Low(b: bv8): (h: nat)
    ensures h < 16
  {
    (b as nat) % 16
  }

  lemma HalvesBack(hi: nat, lo: nat)
    requires hi < 16 && lo < 16
    ensures High(Halves(hi, lo)) == hi && Low(Halves(hi, lo)) == lo
  {
    ByteOfNat(16 * hi + lo);
  }

  /** The upper half of data byte i; the terminator follows the last one. */
  function Upper(bytes: seq<bv8>, i: nat): (h: nat)
    ensures h < 16
  {
    if i < |bytes| then High(bytes[i]) else 0
  }

  /** Whole bytes before the data run half a byte out of step. */
  function Head(v: Version): nat {
    if v <= 9 then 2 else 3
  }

  function PadCount(n: nat, v: Version): nat {
    if n + Head(v) <= TotalData(v) then TotalData(v) - n - Head(v) else 0
  }

  /** Mode 4 and the length take three halves up to version 9 and five from version 10 on; the data follow half a
      byte out of step, then half a byte of terminator and the pad bytes. */
  function CodewordAt(bytes: seq<bv8>, v: Version, k: nat): bv8
    requires |bytes| < 0x1_0000
  {
    var n, head := |bytes|, Head(v);
    if v <= 9 && k == 0 then Halves(4, n / 16 % 16)
    else if v > 9 && k == 0 then Halves(4, n / 4096)
    else if v > 9 && k == 1 then Halves(n / 256 % 16, n / 16 % 16)
    else if k == head - 1 then Halves(n % 16, Upper(bytes, 0))
    else if k < head + n then Halves(Low(bytes[k - head]), Upper(bytes, k - head + 1))
    else if (k - head - n) % 2 == 0 then 0xec
    else 0x11
  }

  /** Halves of bytes as bits. */
  function HalfBits(hs: seq<nat>): (s: seq<bool>)
    ensures |s| == 4 * |hs|
  {
    if hs == [] then [] else HalfBits(hs[..|hs| - 1]) + NatBits(hs[|hs| - 1], 4)
  }

  lemma {:induction false} HalfBitsConcat(a: seq<nat>, b: seq<nat>)
    ensures HalfBits(a + b) == HalfBits(a) + HalfBits(b)
  {
    hide NatBits;
    if b == [] {
      assert a + b == a;
    } else {
      var init := b[..|b| - 1];
      HalfBitsConcat(a, init);
      assert (a + b)[..|a + b| - 1] == a + init;
    }
  }

  lemma OneBit(x: nat, len: nat)
    ensures NatBits(x, len + 1) == NatBits(x / 2, len) + [x % 2 == 1]
  {}

  function Four(x: nat): (s: seq<bool>)
    ensures |s| == 4
  {
    [x / 2 / 2 / 2 % 2 == 1, x / 2 / 2 % 2 == 1, x / 2 % 2 == 1, x % 2 == 1]
  }

  lemma FourBits(x: nat, len: nat)
    ensures NatBits(x, len + 4) == NatBits(x / 16, len) + Four(x)
  {
    hide NatBits;
    OneBit(x, len + 3);
    OneBit(x / 2, len + 2);
    OneBit(x / 2 / 2, len + 1);
    OneBit(x / 2 / 2 / 2, len);
    assert x / 2 / 2 / 2 / 2 == x / 16;
  }

  lemma Halved(q: nat, y: nat)
    ensures (2 * q + y) / 2 == q + y / 2 && (2 * q + y) % 2 == y % 2
  {}

  lemma SameFour(q: nat, y: nat)
    ensures Four(16 * q + y) == Four(y)
  {
    Halved(8 * q, y);
    Halved(4 * q, y / 2);
    Halved(2 * q, y / 2 / 2);
    Halved(q, y / 2 / 2 / 2);
  }

  lemma FourAlone(y: nat)
    requires y < 16
    ensures NatBits(y, 4) == Four(y)
  {
    FourBits(y, 0);
    assert NatBits(y / 16, 0) == [];
    hide NatBits, Four;
  }

  /** The last half byte of a number. */
  lemma LastHalf(x: nat, len: nat)
    ensures NatBits(x, len + 4) == NatBits(x / 16, len) + NatBits(x % 16, 4)
  {
    hide *;
    FourBits(x, len);
    FourAlone(x % 16);
    SameFour(x / 16, x % 16);
    assert 16 * (x / 16) + x % 16 == x;
  }

  /** Every byte as its two halves. */
  function DataHalves(bytes: seq<bv8>): (hs: seq<nat>)
    ensures |hs| == 2 * |bytes| && forall i :: 0 <= i < |hs| ==> hs[i] < 16
    ensures forall i :: 0 <= i < |bytes| ==> hs[2 * i] == High(bytes[i]) && hs[2 * i + 1] == Low(bytes[i])
  {
    if bytes == [] then []
    else
      var b := bytes[|bytes| - 1];
      DataHalves(bytes[..|bytes| - 1]) + [High(b), Low(b)]
  }

  lemma HalfLast(hs: seq<nat>, a: nat, b: nat)
    ensures HalfBits(hs + [a, b]) == HalfBits(hs) + (NatBits(a, 4) + NatBits(b, 4))
  {
    hide NatBits;
    assert (hs + [a, b])[..|hs| + 1] == hs + [a] && (hs + [a])[..|hs|] == hs;
    assert HalfBits(hs + [a, b]) == HalfBits(hs + [a]) + NatBits(b, 4);
  }

  lemma {:induction false} DataHalvesBits(bytes: seq<bv8>)
    ensures HalfBits(DataHalves(bytes)) == Stream(bytes)
  {
    hide NatBits, HalfBits, High, Low;
    if bytes == [] {
      NoHalves();
    } else {
      var init, b := bytes[..|bytes| - 1], bytes[|bytes| - 1];
      DataHalvesBits(init);
      HalfLast(DataHalves(init), High(b), Low(b));
      ByteHalves(b);
    }
  }

  lemma ByteHalves(b: bv8)
    ensures ByteBits(b) == NatBits(High(b), 4) + NatBits(Low(b), 4)
  {
    hide NatBits;
    LastHalf(b as nat, 4);
  }

  lemma NoHalves()
    ensures HalfBits([]) == []
  {}

  /** Halves taken two by two make bytes. */
  function Pairs(hs: seq<nat>): (bytes: seq<bv8>)
    requires |hs| % 2 == 0 && forall i :: 0 <= i < |hs| ==> hs[i] < 16
    ensures |bytes| == |hs| / 2
    ensures forall k :: 0 <= k < |bytes| ==> bytes[k] == Halves(hs[2 * k], hs[2 * k + 1])
  {
    if hs == [] then []
    else
      var n := |hs| - 2;
      Pairs(hs[..n]) + [Halves(hs[n], hs[n + 1])]
  }

  lemma {:induction false} PairsBits(hs: seq<nat>)
    requires |hs| % 2 == 0 && forall i :: 0 <= i < |hs| ==> hs[i] < 16
    ensures Stream(Pairs(hs)) == HalfBits(hs)
  {
    hide HalfBits, Stream, NatBits, Halves, High, Low;
    if hs == [] {
      NoHalves();
      NoStream();
    } else {
      var n := |hs| - 2;
      var init, b := hs[..n], Halves(hs[n], hs[n + 1]);
      PairsBits(init);
      StreamPush(Pairs(init), b);
      HalvesBack(hs[n], hs[n + 1]);
      ByteHalves(b);
      HalfLast(init, hs[n], hs[n + 1]);
      assert hs == init + [hs[n], hs[n + 1]];
    }
  }

  lemma NoStream()
    ensures Stream([]) == []
  {}

  // ---- The whole sequence ------------------------------------------------------

  /** The length in halves of bytes. */
  function LengthHalves(n: nat, v: Version): (hs: seq<nat>)
    requires n < 0x1_0000
    ensures |hs| == (if v <= 9 then 2 else 4) && forall i :: 0 <= i < |hs| ==> hs[i] < 16
  {
    if v <= 9 then [n / 16 % 16, n % 16] else [n / 4096, n / 256 % 16, n / 16 % 16, n % 16]
  }

  /** Mode, length, data and terminator. */
  function MessageHalves(bytes: seq<bv8>, v: Version): (hs: seq<nat>)
    requires |bytes| < 0x1_0000
    ensures |hs| == 2 * (|bytes| + Head(v)) && |hs| % 2 == 0
    ensures forall i :: 0 <= i < |hs| ==> hs[i] < 16
  {
    [4] + LengthHalves(|bytes|, v) + DataHalves(bytes) + [0]
  }

  lemma LengthBits(n: nat, v: Version)
    requires n < 0x1_0000 && (v <= 9 ==> n < 256)
    ensures HalfBits(LengthHalves(n, v)) == NatBits(n, CharCountBits(v))
  {
    hide NatBits, HalfBits;
    NoHalves();
    if v <= 9 {
      LastHalf(n, 4);
      HalfLast([], n / 16 % 16, n % 16);
      assert [] + [n / 16 % 16, n % 16] == [n / 16 % 16, n % 16];
    } else {
      LastHalf(n, 12);
      LastHalf(n / 16, 8);
      LastHalf(n / 16 / 16, 4);
      assert n / 16 / 16 == n / 256 && n / 16 / 16 / 16 == n / 4096;
      HalfLast([], n / 4096, n / 256 % 16);
      HalfLast([n / 4096, n / 256 % 16], n / 16 % 16, n % 16);
      assert [] + [n / 4096, n / 256 % 16] == [n / 4096, n / 256 % 16];
      assert [n / 4096, n / 256 % 16] + [n / 16 % 16, n % 16] == [n / 4096, n / 256 % 16, n / 16 % 16, n % 16];
    }
  }

  lemma EndHalves()
    ensures HalfBits([4]) == NatBits(4, 4) && HalfBits([0]) == Falses(4)
  {
    assert NatBits(0, 1) == [false] && NatBits(0, 2) == [false, false] && NatBits(0, 3) == [false, false, false];
    NoHalves();
  }

  /** The halves spell the message and four zeros. */
  lemma MessageBits(bytes: seq<bv8>, v: Version)
    requires Fits(|bytes|, v)
    ensures |bytes| < 0x1_0000
    ensures HalfBits(MessageHalves(bytes, v)) == Message(bytes, v) + Falses(4)
  {
    FitsTable(|bytes|, v);
    hide HalfBits, NatBits, Stream, DataHalves, LengthHalves, Falses;
    var length, hs := LengthHalves(|bytes|, v), DataHalves(bytes);
    HalfBitsConcat([4] + length + hs, [0]);
    HalfBitsConcat([4] + length, hs);
    HalfBitsConcat([4], length);
    LengthBits(|bytes|, v);
    DataHalvesBits(bytes);
    EndHalves();
  }

  lemma {:induction false} StreamConcat(a: seq<bv8>, b: seq<bv8>)
    ensures Stream(a + b) == Stream(a) + Stream(b)
  {
    hide ByteBits;
    if b == [] {
      assert a + b == a;
    } else {
      StreamConcat(a, b[..|b| - 1]);
      assert (a + b)[..|a + b| - 1] == a + b[..|b| - 1];
    }
  }

  /** With room for the message there is room for the four terminator bits, and no alignment is needed. */
  lemma NoAlignment(bytes: seq<bv8>, v: Version)
    requires Fits(|bytes|, v)
    ensures |Message(bytes, v)| == 4 + CharCountBits(v) + 8 * |bytes|
    ensures Aligned(Message(bytes, v), 8 * TotalData(v)) == Message(bytes, v) + Falses(4)
    ensures (|Message(bytes, v)| + 4) / 8 == |bytes| + Head(v) <= TotalData(v)
  {
    hide NatBits, Stream, TotalData;
    var m := Message(bytes, v);
    assert |m| == 4 + CharCountBits(v) + 8 * |bytes|;
    assert (|m| + 4) % 8 == 0;
    assert m + Falses(4) + Falses(0) == m + Falses(4);
  }

  /** The message and the pad bytes. */
  function AllBytes(bytes: seq<bv8>, v: Version): (all: seq<bv8>)
    requires |bytes| < 0x1_0000
    ensures |all| == |bytes| + Head(v) + PadCount(|bytes|, v)
  {
    Pairs(MessageHalves(bytes, v)) + PadBytes(PadCount(|bytes|, v))
  }

  lemma WholeSequence(bytes: seq<bv8>, v: Version, codewords: seq<bv8>)
    requires Fits(|bytes|, v) && |codewords| == TotalData(v) && Stream(codewords) == EncodedStream(bytes, v)
    requires |bytes| < 0x1_0000
    ensures |bytes| + Head(v) <= TotalData(v) && codewords == AllBytes(bytes, v)
  {
    hide HalfBits, NatBits, Stream, MessageHalves, TotalData, Message, Aligned, PadBytes, Pack, Fits;
    var hs, pads := MessageHalves(bytes, v), PadBytes(PadCount(|bytes|, v));
    NoAlignment(bytes, v);
    MessageBits(bytes, v);
    PairsBits(hs);
    StreamConcat(Pairs(hs), pads);
    PackStream(codewords);
    PackStream(Pairs(hs) + pads);
  }

  /** Which two halves make a byte of the message. */
  lemma HalvesAt(bytes: seq<bv8>, v: Version, k: nat)
    requires |bytes| < 0x1_0000 && k < |bytes| + Head(v)
    ensures Halves(MessageHalves(bytes, v)[2 * k], MessageHalves(bytes, v)[2 * k + 1]) == CodewordAt(bytes, v, k)
  {
    hide DataHalves, High, Low, Halves;
    var head, hs, length := Head(v), MessageHalves(bytes, v), LengthHalves(|bytes|, v);
    if k >= head {
      assert hs[2 * k] == DataHalves(bytes)[2 * (k - head) + 1];
      assert k - head + 1 < |bytes| ==> hs[2 * k + 1] == DataHalves(bytes)[2 * (k - head + 1)];
    } else if k == head - 1 {
      assert hs[2 * k] == length[|length| - 1];
      assert 0 < |bytes| ==> hs[2 * k + 1] == DataHalves(bytes)[2 * 0];
    } else {
      assert hs[2 * k] == ([4] + length)[2 * k] && hs[2 * k + 1] == ([4] + length)[2 * k + 1];
    }
  }

  /** What every code word of the encoded data is. */
  lemma CodewordsAre(bytes: seq<bv8>, v: Version, codewords: seq<bv8>, k: nat)
    requires Fits(|bytes|, v) && |codewords| == TotalData(v) && Stream(codewords) == EncodedStream(bytes, v)
    requires k < TotalData(v)
    ensures |bytes| < 0x1_0000 && codewords[k] == CodewordAt(bytes, v, k)
  {
    hide *;
    ShortEnough(|bytes|, v);
    WholeSequence(bytes, v, codewords);
    WholeAt(bytes, v, k);
  }

  lemma ShortEnough(n: nat, v: Version)
    requires Fits(n, v)
    ensures n < 0x1_0000
  {
    FitsTable(n, v);
  }

  lemma WholeAt(bytes: seq<bv8>, v: Version, k: nat)
    requires |bytes| < 0x1_0000 && |bytes| + Head(v) <= TotalData(v) && k < TotalData(v)
    ensures k < |AllBytes(bytes, v)| && AllBytes(bytes, v)[k] == CodewordAt(bytes, v, k)
  {
    hide TotalData, Halves, MessageHalves, PadBytes, CodewordAt;
    if k < |bytes| + Head(v) {
      HalvesAt(bytes, v, k);
    } else {
      PadAt(bytes, v, k);
    }
  }

  lemma PadAt(bytes: seq<bv8>, v: Version, k: nat)
    requires |bytes| < 0x1_0000 && |bytes| + Head(v) <= k < TotalData(v)
    ensures PadBytes(PadCount(|bytes|, v))[k - |bytes| - Head(v)] == CodewordAt(bytes, v, k)
  {
    hide TotalData, Halves, High, Low;
  }
}
