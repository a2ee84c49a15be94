/** What text looks like on the wire: base64url as tables 2 and section 10 of RFC 4648 have it, UTF-8 with the bytes of
    table 3-6 of the Unicode standard, and the source string of a delegated run. */
module TextExamples {
  import opened Wrappers
  import opened TextCodec
  import opened DelegationSource

  /** The alphabet runs A to Z, a to z, 0 to 9, then a dash and an underscore. */
  lemma AlphabetIs(v: nat)
    requires v < 64
    ensures CharOf(0) == 'A' && CharOf(25) == 'Z' && CharOf(26) == 'a' && CharOf(51) == 'z'
    ensures CharOf(52) == '0' && CharOf(61) == '9' && CharOf(62) == '-' && CharOf(63) == '_'
    ensures v < 61 && v != 25 && v != 51 ==> CharOf(v + 1) as int == CharOf(v) as int + 1
  {}

  /** Three bytes and their four characters are the same 24 bits. */
  lemma FourOfThree(bs: seq<nat>)
    requires AllBytes(bs) && |bs| >= 3
    ensures var vs := Sextets(bs);
      |vs| >= 4 && vs[4..] == Sextets(bs[3..]) &&
      ((vs[0] * 64 + vs[1]) * 64 + vs[2]) * 64 + vs[3] == (bs[0] * 256 + bs[1]) * 256 + bs[2]
  {
    var a, b, c := bs[0], bs[1], bs[2];
    SplitSixes(a, b, c);
    assert Sextets(bs) == [Sextet0(a), Sextet1(a, b), Sextet2(b, c), Sextet3(c)] + Sextets(bs[3..]);
  }

  lemma SplitSixes(a: nat, b: nat, c: nat)
    requires a < 256 && b < 256 && c < 256
    ensures ((Sextet0(a) * 64 + Sextet1(a, b)) * 64 + Sextet2(b, c)) * 64 + Sextet3(c) == (a * 256 + b) * 256 + c
  {
    assert a == a / 4 * 4 + a % 4;
    assert b == b / 16 * 16 + b % 16;
    assert c == c / 64 * 64 + c % 64;
  }

  /** Groups at the end are as if filled up with zero bytes, without the characters of the zeros. */
  lemma ShortGroups(a: nat, b: nat)
    requires a < 256 && b < 256
    ensures AllBytes([a]) && AllBytes([a, b]) && AllBytes([a, 0, 0]) && AllBytes([a, b, 0])
    ensures Sextets([a]) == Sextets([a, 0, 0])[..2] && Sextets([a, b]) == Sextets([a, b, 0])[..3]
  {
    assert [a, 0, 0][3..] == [] && [a, b, 0][3..] == [];
  }

  /** Every scalar value begins with the byte that its length asks for, goes on with bytes 80 to BF, and has its bits in
      them in order. */
  lemma Utf8Bytes(c: nat)
    requires IsScalar(c)
    ensures var bs := EncodeScalar(c);
      (|bs| == 1 <==> c < 0x80) && (|bs| == 2 <==> 0x80 <= c < 0x800) && (|bs| == 3 <==> 0x800 <= c < 0x10000) &&
      (|bs| == 1 ==> bs[0] == c) &&
      (|bs| == 2 ==> 0xC2 <= bs[0] <= 0xDF && c == (bs[0] - 0xC0) * 64 + (bs[1] - 0x80)) &&
      (|bs| == 3 ==> 0xE0 <= bs[0] <= 0xEF && c == ((bs[0] - 0xE0) * 64 + (bs[1] - 0x80)) * 64 + (bs[2] - 0x80)) &&
      (|bs| == 4 ==>
        (0xF0 <= bs[0] <= 0xF4 && c == (((bs[0] - 0xF0) * 64 + (bs[1] - 0x80)) * 64 + (bs[2] - 0x80)) * 64 + (bs[3] - 0x80))) &&
      forall i :: 1 <= i < |bs| ==> 0x80 <= bs[i] <= 0xBF
  {
    var q := c / 64;
    var r := q / 64;
    Split64(c);
    Split64(q);
    Split64(r);
    assert c / 4096 == r && c / 262144 == r / 64;
  }

  /** The source of a start without a run and without a key, by a session named a, at depth 1. */
  lemma SourceExample()
    ensures Source([0x61], None, 1, "") == "agent-delegation:v1:1:YQ:-"
  {
    assert [0x61][1..] == [];
    assert Scalars([0x61]) == [0x61];
    assert Encode([0x61]) == [0x61];
    assert Sextets([0x61]) == [24, 16];
    assert ToBase64Url([0x61]) == "YQ";
    assert Decimal(1) == "1";
    assert RunField(None) == "-" && More("") == "";
  }
}
