/** Data encodation in byte mode (section 7.4 of ISO/IEC 18004:2015) and its inverse. */
module Encodation {
  import opened Wrappers
  import opened Numbers
  import opened Bits
  import opened Versions

  // ---- Version choice ----------------------------------------------------

  /** Bytes taken by mode, count and data, rounded up. */
  function BytesNeeded(byteLen: nat, v: Version): nat {
    (4 + CharCountBits(v) + byteLen * 8 + 7) / 8
  }

  predicate Fits(byteLen: nat, v: Version) {
    BytesNeeded(byteLen, v) <= TotalData(v)
  }

  /** The smallest version that holds the data; None stands for the thrown error. */
  method ChooseVersion(byteLen: nat) returns (r: Option<Version>)
    ensures r.Some? ==> Fits(byteLen, r.value) && forall u: Version :: u < r.value ==> !Fits(byteLen, u)
    ensures r == None <==> byteLen > 858
  {
    for v := 1 to 21
      invariant forall u: Version :: u < v ==> !Fits(byteLen, u)
    {
      if BytesNeeded(byteLen, v) <= TotalData(v) {
        FitsBelow859(byteLen, v);
        return Some(v);
      }
    }
    assert !Fits(byteLen, 20);
    return None;
  }

  lemma FitsBelow859(byteLen: nat, v: Version)
    requires Fits(byteLen, v)
    ensures byteLen <= 858
    ensures byteLen < Pow2(CharCountBits(v))
  {
    assert TotalData(v) <= 861;
    assert v <= 9 ==> TotalData(v) <= 232;
    assert Pow2(8) == 256 && Pow2(16) == 65536;
  }

  // ---- Encoding ----------------------------------------------------------

  function Falses(n: nat): (s: seq<bool>)
    ensures |s| == n
  {
    seq(n, _ => false)
  }

  function PadBytes(n: nat): (s: seq<bv8>)
    ensures |s| == n
  {
    seq(n, i => if i % 2 == 0 then 0xec else 0x11)
  }

  /** Mode indicator 0100, character count, data. */
  function Message(bytes: seq<bv8>, v: Version): seq<bool> {
    NatBits(4, 4) + NatBits(|bytes|, CharCountBits(v)) + Stream(bytes)
  }

  /** Up to four terminator bits, then zeros up to a byte boundary. */
  function Aligned(s: seq<bool>, cap: nat): (r: seq<bool>)
    ensures s <= r && |r| % 8 == 0
    ensures |s| <= cap && cap % 8 == 0 ==> |r| <= cap
  {
    var t := s + Falses(if |s| < cap then Min(4, cap - |s|) else 0);
    t + Falses((8 - |t| % 8) % 8)
  }

  lemma WholeBytes(k: nat)
    ensures 8 * k % 8 == 0 && 8 * k / 8 == k
  {}

  lemma MissingBytes(m: nat, n: nat)
    requires m % 8 == 0 && n % 8 == 0
    ensures m <= n ==> m + 8 * ((n - m) / 8) == n
    ensures forall k: nat :: (m + 8 * k) % 8 == 0
  {
    var i, j := m / 8, n / 8;
    assert m == 8 * i && n == 8 * j;
    if m <= n {
      WholeBytes(j - i);
      assert n - m == 8 * (j - i);
    }
    forall k: nat ensures (m + 8 * k) % 8 == 0 {
      WholeBytes(i + k);
      assert m + 8 * k == 8 * (i + k);
    }
  }

  /** Alternating pad bytes up to the capacity. */
  function Padded(a: seq<bool>, cap: nat): (r: seq<bool>)
    requires |a| % 8 == 0 && cap % 8 == 0
    ensures a <= r && |r| % 8 == 0
    ensures |a| <= cap ==> |r| == cap
  {
    hide Stream;
    var missing := if |a| < cap then (cap - |a|) / 8 else 0;
    MissingBytes(|a|, cap);
    a + Stream(PadBytes(missing))
  }

  function Filled(m: seq<bool>, cap: nat): (r: seq<bool>)
    requires cap % 8 == 0
    ensures m <= r && |r| % 8 == 0
    ensures |m| <= cap ==> |r| == cap
  {
    Padded(Aligned(m, cap), cap)
  }

  /** The whole bit stream: message, terminator, alignment, pad bytes. */
  function EncodedStream(bytes: seq<bv8>, v: Version): seq<bool> {
    hide TotalData, Message;
    WholeBytes(TotalData(v));
    Filled(Message(bytes, v), 8 * TotalData(v))
  }

  /** Pushes the low len bits of val, most significant first. */
  method Put(bb: seq<bool>, val: nat, len: nat) returns (r: seq<bool>)
    ensures r == bb + NatBits(val, len)
  {
    r := bb;
    var i := len;
    while i > 0
      invariant 0 <= i <= len
      invariant r == bb + NatBits(ShiftRight(val, i), len - i)
    {
      i := i - 1;
      r := r + [ShiftRight(val, i) % 2 == 1];
    }
  }

  method PutByte(bb: seq<bool>, b: bv8) returns (r: seq<bool>)
    ensures r == bb + ByteBits(b)
  {
    r := Put(bb, b as nat, 8);
  }

  method PutMessage(bytes: seq<bv8>, v: Version) returns (bb: seq<bool>)
    ensures bb == Message(bytes, v)
  {
    hide NatBits, ByteBits;
    bb := Put([], 4, 4);
    bb := Put(bb, |bytes|, CharCountBits(v));
    ghost var header := bb;
    for i := 0 to |bytes|
      invariant bb == header + Stream(bytes[..i])
    {
      bb := PutByte(bb, bytes[i]);
      assert bytes[..i + 1][..i] == bytes[..i];
    }
    assert bytes[..|bytes|] == bytes;
  }

  method AlignBits(term: seq<bool>) returns (bb: seq<bool>)
    ensures bb == term + Falses((8 - |term| % 8) % 8)
  {
    bb := term;
    while |bb| % 8 != 0
      invariant |term| <= |bb| <= |term| + (8 - |term| % 8) % 8
      invariant bb == term + Falses(|bb| - |term|)
      decreases |term| + 8 - |bb|
    {
      bb := bb + [false];
    }
  }

  method Terminate(m: seq<bool>, cap: nat) returns (bb: seq<bool>)
    ensures bb == Aligned(m, cap)
  {
    bb := m;
    var t := 0;
    while t < 4 && |bb| < cap
      invariant 0 <= t <= 4 && bb == m + Falses(t)
      invariant t > 0 ==> |m| + t <= cap
    {
      bb := bb + [false];
      t := t + 1;
    }
    bb := AlignBits(bb);
  }

  method Pad(a: seq<bool>, cap: nat) returns (bb: seq<bool>)
    requires |a| % 8 == 0 && cap % 8 == 0
    ensures bb == Padded(a, cap)
  {
    hide ByteBits, Stream, PadBytes;
    bb := a;
    var pads: seq<bv8> := [0xec, 0x11];
    var pi := 0;
    assert a + Stream(PadBytes(0)) == a;
    while |bb| < cap
      invariant bb == a + Stream(PadBytes(pi)) && |bb| == |a| + 8 * pi
      invariant |a| < cap ==> |bb| <= cap
      invariant |a| >= cap ==> pi == 0
      decreases cap - |bb|
    {
      bb := PutByte(bb, pads[pi % 2]);
      OneMorePad(pi);
      pi := pi + 1;
    }
    assert pi == if |a| < cap then (cap - |a|) / 8 else 0;
  }

  lemma OneMorePad(n: nat)
    ensures Stream(PadBytes(n + 1)) == Stream(PadBytes(n)) + ByteBits(if n % 2 == 0 then 0xec else 0x11)
  {
    hide Stream, ByteBits;
    assert PadBytes(n + 1) == PadBytes(n) + [if n % 2 == 0 then 0xec else 0x11];
    StreamPush(PadBytes(n), if n % 2 == 0 then 0xec else 0x11);
  }

  method EncodeData(bytes: seq<bv8>, v: Version) returns (codewords: seq<bv8>)
    ensures Stream(codewords) == EncodedStream(bytes, v)
    ensures Fits(|bytes|, v) ==> |codewords| == TotalData(v)
  {
    hide NatBits, ByteBits, TotalData, PackByte, Aligned, Padded, Pack;
    var bb := PutMessage(bytes, v);
    bb := Terminate(bb, TotalData(v) * 8);
    bb := Pad(bb, TotalData(v) * 8);
    codewords := ToBytes(bb);
    StreamPack(bb);
  }

  method ShiftIn(bits: seq<bool>) returns (byte: bv8)
    requires |bits| == 8
    ensures byte == PackByte(bits)
  {
    var n := 0;
    for k := 0 to 8
      invariant n == BitsNat(bits[..k])
    {
      assert bits[..k + 1][..k] == bits[..k];
      n := 2 * n + if bits[k] then 1 else 0;
    }
    assert bits[..8] == bits;
    assert Pow2(8) == 256;
    byte := n as bv8;
  }

  /** The last loop of encodeData: eight bits at a time, shifted into a byte. */
  method ToBytes(bb: seq<bool>) returns (codewords: seq<bv8>)
    requires |bb| % 8 == 0
    ensures codewords == Pack(bb)
  {
    codewords := [];
    var b := 0;
    assert Pack(bb[..0]) == [];
    hide *;
    while b < |bb|
      invariant 0 <= b <= |bb| && b % 8 == 0
      invariant codewords == Pack(bb[..b])
    {
      WholeByteLeft(b, |bb|);
      var byte := ShiftIn(bb[b..b + 8]);
      ghost var front := bb[..b + 8];
      assert front[..|front| - 8] == bb[..b] && front[|front| - 8..] == bb[b..b + 8];
      PackLast(front);
      codewords := codewords + [byte];
      b := b + 8;
    }
    assert bb[..|bb|] == bb;
  }

  lemma WholeByteLeft(b: nat, n: nat)
    requires b % 8 == 0 && n % 8 == 0 && b < n
    ensures b + 8 <= n && (b + 8) % 8 == 0
  {}

  // ---- Decoding ----------------------------------------------------------

  /** What a scanner does with the data bytes: mode, count, then that many bytes. */
  function Parse(codewords: seq<bv8>, v: Version): Option<seq<bv8>> {
    var s := Stream(codewords);
    var start := 4 + CharCountBits(v);
    if |s| < start || BitsNat(s[..4]) != 4 then None
    else
      var n := BitsNat(s[4..start]);
      if |s| < start + 8 * n then None else Some(Pack(s[start..start + 8 * n]))
  }

  /** Parsing undoes encoding, for every message that fits the version. */
  lemma ParseEncoded(bytes: seq<bv8>, v: Version, codewords: seq<bv8>)
    requires Fits(|bytes|, v)
    requires Stream(codewords) == EncodedStream(bytes, v)
    ensures Parse(codewords, v) == Some(bytes)
  {
    hide NatBits, Stream, BitsNat, Pack, TotalData;
    var s, start := Stream(codewords), 4 + CharCountBits(v);
    FitsBelow859(|bytes|, v);
    var m := Message(bytes, v);
    assert s[..|m|] == m;
    assert s[..4] == m[..4] == NatBits(4, 4);
    assert s[4..start] == m[4..start] == NatBits(|bytes|, CharCountBits(v));
    assert s[start..|m|] == m[start..] == Stream(bytes);
    assert 4 < Pow2(4);
    NatRoundTrip(4, 4);
    NatRoundTrip(|bytes|, CharCountBits(v));
    PackStream(bytes);
  }
}
