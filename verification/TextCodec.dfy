/** Text as UTF-16 code units, its UTF-8 bytes, and base64url. Every decoder is total: malformed bytes
    become replacement characters and characters outside the alphabet are skipped. */
module TextCodec {
  import opened Wrappers

  type Text = seq<nat>

  const REPLACEMENT: nat := 0xFFFD

  predicate IsUnit(u: nat) { u < 0x1_0000 }
  predicate High(u: nat) { 0xD800 <= u < 0xDC00 }
  predicate Low(u: nat) { 0xDC00 <= u < 0xE000 }
  predicate IsScalar(c: nat) { c < 0x11_0000 && !High(c) && !Low(c) }

  predicate IsText(t: Text) {
    forall i :: 0 <= i < |t| ==> IsUnit(t[i])
  }

  ghost predicate AllScalars(cs: seq<nat>) {
    forall i :: 0 <= i < |cs| ==> IsScalar(cs[i])
  }

  ghost predicate AllBytes(bs: seq<nat>) {
    forall i :: 0 <= i < |bs| ==> bs[i] < 256
  }

  // ---- UTF-16 ------------------------------------------------------------------

  /** Surrogate pairs make one scalar value; a lone surrogate becomes a replacement character. */
  function Scalars(t: Text): (cs: seq<nat>)
    requires IsText(t)
    ensures AllScalars(cs)
    ensures cs == [] <==> t == []
  {
    if t == [] then []
    else if High(t[0]) && |t| > 1 && Low(t[1]) then
      [0x1_0000 + (t[0] - 0xD800) * 0x400 + (t[1] - 0xDC00)] + Scalars(t[2..])
    else [if High(t[0]) || Low(t[0]) then REPLACEMENT else t[0]] + Scalars(t[1..])
  }

  function UnitsOf(c: nat): (t: Text)
    requires IsScalar(c)
    ensures IsText(t)
  {
    if c < 0x1_0000 then [c] else [0xD800 + (c - 0x1_0000) / 0x400, 0xDC00 + (c - 0x1_0000) % 0x400]
  }

  function Units(cs: seq<nat>): (t: Text)
    requires AllScalars(cs)
    ensures IsText(t)
  {
    if cs == [] then [] else UnitsOf(cs[0]) + Units(cs[1..])
  }

  /** The text with each lone surrogate replaced. */
  function Repair(t: Text): Text
    requires IsText(t)
  {
    Units(Scalars(t))
  }

  predicate WellFormed(t: Text) {
    t == [] ||
    (if High(t[0]) then |t| > 1 && Low(t[1]) && WellFormed(t[2..]) else !Low(t[0]) && WellFormed(t[1..]))
  }

  /** Repairing keeps the length, and the text itself just when it was well formed. */
  lemma {:induction false} RepairExact(t: Text)
    requires IsText(t)
    ensures |Repair(t)| == |t|
    ensures Repair(t) == t <==> WellFormed(t)
  {
    if t != [] {
      var cs := Scalars(t);
      if High(t[0]) && |t| > 1 && Low(t[1]) {
        RepairExact(t[2..]);
        assert cs[1..] == Scalars(t[2..]);
        PairUnits(t[0], t[1]);
        assert Repair(t) == [t[0], t[1]] + Repair(t[2..]);
        assert Repair(t)[2..] == Repair(t[2..]) && t == [t[0], t[1]] + t[2..];
      } else {
        RepairExact(t[1..]);
        assert cs[1..] == Scalars(t[1..]);
        assert Repair(t) == [cs[0]] + Repair(t[1..]);
        assert Repair(t)[1..] == Repair(t[1..]) && t == [t[0]] + t[1..];
      }
    }
  }

  lemma PairUnits(hi: nat, lo: nat)
    requires High(hi) && Low(lo)
    ensures var c := 0x1_0000 + (hi - 0xD800) * 0x400 + (lo - 0xDC00); IsScalar(c) && UnitsOf(c) == [hi, lo]
  {}

  // ---- UTF-8 -------------------------------------------------------------------

  function EncodeScalar(c: nat): (bs: seq<nat>)
    requires IsScalar(c)
    ensures 1 <= |bs| <= 4 && AllBytes(bs)
  {
    if c < 0x80 then [c]
    else if c < 0x800 then [0xC0 + c / 64, 0x80 + c % 64]
    else if c < 0x1_0000 then [0xE0 + c / 4096, 0x80 + c / 64 % 64, 0x80 + c % 64]
    else [0xF0 + c / 262144, 0x80 + c / 4096 % 64, 0x80 + c / 64 % 64, 0x80 + c % 64]
  }

  function EncodeScalars(cs: seq<nat>): (bs: seq<nat>)
    requires AllScalars(cs)
    ensures AllBytes(bs)
    ensures bs == [] <==> cs == []
  {
    if cs == [] then [] else EncodeScalar(cs[0]) + EncodeScalars(cs[1..])
  }

  function Encode(t: Text): (bs: seq<nat>)
    requires IsText(t)
    ensures AllBytes(bs)
    ensures bs == [] <==> t == []
  {
    EncodeScalars(Scalars(t))
  }

  predicate Within(bs: seq<nat>, i: nat, lo: nat, hi: nat) {
    i < |bs| && lo <= bs[i] <= hi
  }

  /** The first scalar value and how many bytes it took; a malformed start takes as many as could have
      begun a character. */
  function DecodeOne(bs: seq<nat>): (r: (nat, nat))
    requires bs != []
    ensures 1 <= r.1 <= |bs| && IsScalar(r.0)
  {
    var b := bs[0];
    if b < 0x80 then (b, 1)
    else if 0xC2 <= b <= 0xDF then
      if Within(bs, 1, 0x80, 0xBF) then ((b - 0xC0) * 64 + (bs[1] - 0x80), 2) else (REPLACEMENT, 1)
    else if 0xE0 <= b <= 0xEF then
      if !Within(bs, 1, if b == 0xE0 then 0xA0 else 0x80, if b == 0xED then 0x9F else 0xBF) then (REPLACEMENT, 1)
      else if !Within(bs, 2, 0x80, 0xBF) then (REPLACEMENT, 2)
      else ((b - 0xE0) * 4096 + (bs[1] - 0x80) * 64 + (bs[2] - 0x80), 3)
    else if 0xF0 <= b <= 0xF4 then
      if !Within(bs, 1, if b == 0xF0 then 0x90 else 0x80, if b == 0xF4 then 0x8F else 0xBF) then (REPLACEMENT, 1)
      else if !Within(bs, 2, 0x80, 0xBF) then (REPLACEMENT, 2)
      else if !Within(bs, 3, 0x80, 0xBF) then (REPLACEMENT, 3)
      else ((b - 0xF0) * 262144 + (bs[1] - 0x80) * 4096 + (bs[2] - 0x80) * 64 + (bs[3] - 0x80), 4)
    else (REPLACEMENT, 1)
  }

  function DecodeScalars(bs: seq<nat>): (cs: seq<nat>)
    ensures AllScalars(cs)
  {
    if bs == [] then [] else [DecodeOne(bs).0] + DecodeScalars(bs[DecodeOne(bs).1..])
  }

  function Decode(bs: seq<nat>): Text {
    Units(DecodeScalars(bs))
  }

  lemma Split64(c: nat)
    ensures c == c / 64 * 64 + c % 64 && c % 64 < 64
  {}

  lemma DecodesThree(c: nat, bs: seq<nat>)
    requires IsScalar(c) && 0x800 <= c < 0x1_0000 && |bs| >= 3
    requires bs[0] == 0xE0 + c / 4096 && bs[1] == 0x80 + c / 64 % 64 && bs[2] == 0x80 + c % 64
    ensures DecodeOne(bs) == (c, 3)
  {
    var q := c / 64;
    Split64(c);
    Split64(q);
    assert c / 4096 == q / 64;
  }

  lemma DecodesFour(c: nat, bs: seq<nat>)
    requires IsScalar(c) && 0x1_0000 <= c && |bs| >= 4
    requires bs[0] == 0xF0 + c / 262144 && bs[1] == 0x80 + c / 4096 % 64 && bs[2] == 0x80 + c / 64 % 64 && bs[3] == 0x80 + c % 64
    ensures DecodeOne(bs) == (c, 4)
  {
    var q := c / 64;
    var r := q / 64;
    Split64(c);
    Split64(q);
    Split64(r);
    assert c / 4096 == r && c / 262144 == r / 64;
  }

  lemma DecodesOne(c: nat, rest: seq<nat>)
    requires IsScalar(c)
    ensures DecodeOne(EncodeScalar(c) + rest) == (c, |EncodeScalar(c)|)
  {
    var bs := EncodeScalar(c) + rest;
    assert forall i :: 0 <= i < |EncodeScalar(c)| ==> bs[i] == EncodeScalar(c)[i];
    if c >= 0x1_0000 {
      hide DecodeOne;
      DecodesFour(c, bs);
    } else if c >= 0x800 {
      hide DecodeOne;
      DecodesThree(c, bs);
    } else if c >= 0x80 {
      Split64(c);
    }
  }

  lemma {:induction false} DecodesScalars(cs: seq<nat>)
    requires AllScalars(cs)
    ensures DecodeScalars(EncodeScalars(cs)) == cs
  {
    if cs != [] {
      var rest := EncodeScalars(cs[1..]);
      DecodesOne(cs[0], rest);
      assert (EncodeScalar(cs[0]) + rest)[|EncodeScalar(cs[0])|..] == rest;
      DecodesScalars(cs[1..]);
    }
  }

  /** Encoding and decoding repairs the text. */
  lemma Utf8RoundTrip(t: Text)
    requires IsText(t)
    ensures Decode(Encode(t)) == Repair(t)
  {
    DecodesScalars(Scalars(t));
  }

  lemma {:induction false} ScalarsOfUnits(cs: seq<nat>)
    requires AllScalars(cs)
    ensures Scalars(Units(cs)) == cs
  {
    if cs != [] {
      var first, rest := UnitsOf(cs[0]), Units(cs[1..]);
      ScalarsOfUnits(cs[1..]);
      assert (first + rest)[|first|..] == rest;
      assert cs == [cs[0]] + cs[1..];
    }
  }

  /** Texts have the same bytes just when they are the same once repaired. */
  lemma SameBytesJustWhen(s: Text, t: Text)
    requires IsText(s) && IsText(t)
    ensures Encode(s) == Encode(t) <==> Repair(s) == Repair(t)
  {
    Utf8RoundTrip(s);
    Utf8RoundTrip(t);
    ScalarsOfUnits(Scalars(s));
    ScalarsOfUnits(Scalars(t));
  }

  // ---- base64url ---------------------------------------------------------------

  function CharOf(v: nat): (c: char)
    requires v < 64
  {
    if v < 26 then ('A' as int + v) as char
    else if v < 52 then ('a' as int + (v - 26)) as char
    else if v < 62 then ('0' as int + (v - 52)) as char
    else if v == 62 then '-'
    else '_'
  }

  /** Both alphabets are read; any other character is none. */
  function ValueOf(c: char): (v: Option<nat>)
    ensures v.Some? ==> v.value < 64
  {
    if 'A' <= c <= 'Z' then Some(c as int - 'A' as int)
    else if 'a' <= c <= 'z' then Some(c as int - 'a' as int + 26)
    else if '0' <= c <= '9' then Some(c as int - '0' as int + 52)
    else if c == '-' || c == '+' then Some(62)
    else if c == '_' || c == '/' then Some(63)
    else None
  }

  lemma CharsRead(v: nat)
    requires v < 64
    ensures ValueOf(CharOf(v)) == Some(v) && CharOf(v) != ':'
  {}

  // Three bytes as four sextets, and back.
  function Sextet0(a: nat): nat { a / 4 }
  function Sextet1(a: nat, b: nat): nat { a % 4 * 16 + b / 16 }
  function Sextet2(b: nat, c: nat): nat { b % 16 * 4 + c / 64 }
  function Sextet3(c: nat): nat { c % 64 }
  function Byte0(u: nat, v: nat): nat { u * 4 + v / 16 }
  function Byte1(v: nat, w: nat): nat { v % 16 * 16 + w / 4 }
  function Byte2(w: nat, x: nat): nat { w % 4 * 64 + x }

  /** The bits of the bytes, six at a time, the last group filled with zeros. */
  function Sextets(bs: seq<nat>): (vs: seq<nat>)
    requires AllBytes(bs)
    ensures forall i :: 0 <= i < |vs| ==> vs[i] < 64
    ensures if bs == [] then vs == [] else |vs| >= 2
  {
    if |bs| == 0 then []
    else if |bs| == 1 then [Sextet0(bs[0]), Sextet1(bs[0], 0)]
    else if |bs| == 2 then [Sextet0(bs[0]), Sextet1(bs[0], bs[1]), Sextet2(bs[1], 0)]
    else [Sextet0(bs[0]), Sextet1(bs[0], bs[1]), Sextet2(bs[1], bs[2]), Sextet3(bs[2])] + Sextets(bs[3..])
  }

  /** A last group of one sextet holds no whole byte. */
  function FromSextets(vs: seq<nat>): seq<nat> {
    if |vs| < 2 then []
    else if |vs| == 2 then [Byte0(vs[0], vs[1])]
    else if |vs| == 3 then [Byte0(vs[0], vs[1]), Byte1(vs[1], vs[2])]
    else [Byte0(vs[0], vs[1]), Byte1(vs[1], vs[2]), Byte2(vs[2], vs[3])] + FromSextets(vs[4..])
  }

  lemma Regroup(a: nat, b: nat, c: nat)
    requires a < 256 && b < 256 && c < 256
    ensures Byte0(Sextet0(a), Sextet1(a, b)) == a
    ensures Byte1(Sextet1(a, b), Sextet2(b, c)) == b
    ensures Byte2(Sextet2(b, c), Sextet3(c)) == c
  {
    assert Sextet1(a, b) / 16 == a % 4 && Sextet1(a, b) % 16 == b / 16;
    assert Sextet2(b, c) / 4 == b % 16 && Sextet2(b, c) % 4 == c / 64;
  }

  lemma {:induction false} SextetsRoundTrip(bs: seq<nat>)
    requires AllBytes(bs)
    ensures FromSextets(Sextets(bs)) == bs
  {
    hide Sextet0, Sextet1, Sextet2, Sextet3, Byte0, Byte1, Byte2;
    if |bs| > 2 {
      var rest := Sextets(bs[3..]);
      SextetsRoundTrip(bs[3..]);
      Regroup(bs[0], bs[1], bs[2]);
      assert Sextets(bs)[4..] == rest;
      assert bs == [bs[0], bs[1], bs[2]] + bs[3..];
    } else if |bs| == 2 {
      Regroup(bs[0], bs[1], 0);
      assert bs == [bs[0], bs[1]];
    } else if |bs| == 1 {
      Regroup(bs[0], 0, 0);
      assert bs == [bs[0]];
    }
  }

  function ToBase64Url(bs: seq<nat>): string
    requires AllBytes(bs)
  {
    var vs := Sextets(bs);
    seq(|vs|, i requires 0 <= i < |vs| => CharOf(vs[i]))
  }

  function Values(s: string): (vs: seq<nat>)
    ensures forall i :: 0 <= i < |vs| ==> vs[i] < 64
  {
    if s == "" then []
    else (if ValueOf(s[0]).Some? then [ValueOf(s[0]).value] else []) + Values(s[1..])
  }

  function FromBase64Url(s: string): seq<nat> {
    FromSextets(Values(s))
  }

  lemma {:induction false} ValuesOfChars(vs: seq<nat>, s: string)
    requires |s| == |vs| && forall i :: 0 <= i < |vs| ==> vs[i] < 64 && s[i] == CharOf(vs[i])
    ensures Values(s) == vs
  {
    if vs != [] {
      CharsRead(vs[0]);
      ValuesOfChars(vs[1..], s[1..]);
    }
  }

  /** base64url is undone by its decoder, has no colon, and is never a single character. */
  lemma Base64UrlRoundTrip(bs: seq<nat>)
    requires AllBytes(bs)
    ensures FromBase64Url(ToBase64Url(bs)) == bs
    ensures ':' !in ToBase64Url(bs)
    ensures if bs == [] then ToBase64Url(bs) == "" else |ToBase64Url(bs)| >= 2
  {
    var vs, s := Sextets(bs), ToBase64Url(bs);
    ValuesOfChars(vs, s);
    SextetsRoundTrip(bs);
    forall i | 0 <= i < |s| ensures s[i] != ':' {
      CharsRead(vs[i]);
    }
  }
}
