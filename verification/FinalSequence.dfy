/** The final codeword sequence (section 7.6 of ISO/IEC 18004:2015): the data is cut into
    blocks, each block gets its error correction bytes, and all blocks are interleaved. */
module FinalSequence {
  import opened GF256
  import opened GFTables
  import opened ReedSolomon
  import opened Versions

  // ---- Interleaving ------------------------------------------------------

  function Longest(blocks: seq<Poly>): (n: nat)
    ensures forall b :: 0 <= b < |blocks| ==> |blocks[b]| <= n
  {
    if blocks == [] then 0
    else
      var m := Longest(blocks[..|blocks| - 1]);
      if |blocks[|blocks| - 1]| > m then |blocks[|blocks| - 1]| else m
  }

  /** The i-th byte of every block that has one, in block order. */
  function Column(blocks: seq<Poly>, i: nat): seq<bv8> {
    if blocks == [] then []
    else
      var last := blocks[|blocks| - 1];
      Column(blocks[..|blocks| - 1], i) + if i < |last| then [last[i]] else []
  }

  /** The first n columns, one after the other. */
  function Interleaved(blocks: seq<Poly>, n: nat): seq<bv8> {
    if n == 0 then [] else Interleaved(blocks, n - 1) + Column(blocks, n - 1)
  }

  function Lengths(blocks: seq<Poly>): (lens: seq<nat>)
    ensures |lens| == |blocks|
    ensures forall b :: 0 <= b < |blocks| ==> lens[b] == |blocks[b]|
  {
    seq(|blocks|, b requires 0 <= b < |blocks| => |blocks[b]|)
  }

  /** How many blocks reach column i. */
  function Width(lens: seq<nat>, i: nat): (w: nat)
    ensures w <= |lens|
  {
    if lens == [] then 0 else Width(lens[..|lens| - 1], i) + if i < lens[|lens| - 1] then 1 else 0
  }

  lemma {:induction false} WidthOfPrefix(lens: seq<nat>, b: nat, i: nat)
    requires b < |lens|
    ensures Width(lens[..b], i) + (if i < lens[b] then 1 else 0) <= Width(lens, i)
  {
    if b == |lens| - 1 {
    } else {
      WidthOfPrefix(lens[..|lens| - 1], b, i);
      assert lens[..|lens| - 1][..b] == lens[..b];
    }
  }

  lemma {:induction false} ColumnWidth(blocks: seq<Poly>, i: nat)
    ensures |Column(blocks, i)| == Width(Lengths(blocks), i)
  {
    if blocks != [] {
      ColumnWidth(blocks[..|blocks| - 1], i);
      assert Lengths(blocks)[..|blocks| - 1] == Lengths(blocks[..|blocks| - 1]);
    }
  }

  lemma {:induction false} ColumnAt(blocks: seq<Poly>, b: nat, i: nat)
    requires b < |blocks| && i < |blocks[b]|
    ensures |Column(blocks, i)| == Width(Lengths(blocks), i)
    ensures Width(Lengths(blocks)[..b], i) < |Column(blocks, i)|
    ensures Column(blocks, i)[Width(Lengths(blocks)[..b], i)] == blocks[b][i]
  {
    var n := |blocks| - 1;
    var (lens, init) := (Lengths(blocks), blocks[..n]);
    ColumnWidth(blocks, i);
    ColumnWidth(init, i);
    WidthOfPrefix(lens, b, i);
    assert lens[..n] == Lengths(init);
    if b < n {
      ColumnAt(init, b, i);
      assert lens[..n][..b] == lens[..b];
    }
  }

  /** Gives each block that reaches column i its byte of that column. */
  function Extend(front: seq<Poly>, lens: seq<nat>, column: seq<bv8>, i: nat): (blocks: seq<Poly>)
    requires |front| == |lens|
    ensures |blocks| == |lens|
  {
    seq(|lens|, b requires 0 <= b < |lens| =>
      var k := Width(lens[..b], i);
      if i < lens[b] && k < |column| then front[b] + [column[k]] else front[b])
  }

  /** Taking the columns off again, given only the block lengths. */
  function Deinterleaved(lens: seq<nat>, s: seq<bv8>, n: nat): (blocks: seq<Poly>)
    ensures |blocks| == |lens|
    decreases n
  {
    if n == 0 then seq(|lens|, _ => [])
    else
      var w := Width(lens, n - 1);
      var cut := if w <= |s| then |s| - w else 0;
      Extend(Deinterleaved(lens, s[..cut], n - 1), lens, s[cut..], n - 1)
  }

  /** The first n bytes, or all of them. */
  function Prefix(p: Poly, n: nat): Poly {
    if n < |p| then p[..n] else p
  }

  function Prefixes(blocks: seq<Poly>, n: nat): (r: seq<Poly>)
    ensures |r| == |blocks|
  {
    seq(|blocks|, b requires 0 <= b < |blocks| => Prefix(blocks[b], n))
  }

  lemma ExtendPrefixes(blocks: seq<Poly>, i: nat)
    ensures Extend(Prefixes(blocks, i), Lengths(blocks), Column(blocks, i), i) == Prefixes(blocks, i + 1)
  {
    hide Width, Column;
    var r := Extend(Prefixes(blocks, i), Lengths(blocks), Column(blocks, i), i);
    forall b | 0 <= b < |blocks| ensures r[b] == Prefix(blocks[b], i + 1) {
      if i < |blocks[b]| {
        ColumnAt(blocks, b, i);
        assert blocks[b][..i + 1] == blocks[b][..i] + [blocks[b][i]];
      }
    }
  }

  lemma {:induction false} InterleavingInverts(blocks: seq<Poly>, n: nat)
    ensures Deinterleaved(Lengths(blocks), Interleaved(blocks, n), n) == Prefixes(blocks, n)
    decreases n
  {
    hide Extend, Column, Width;
    if n > 0 {
      InterleavingInverts(blocks, n - 1);
      var (s, i) := (Interleaved(blocks, n), n - 1);
      ColumnWidth(blocks, i);
      var cut := |s| - Width(Lengths(blocks), i);
      assert s[..cut] == Interleaved(blocks, i) && s[cut..] == Column(blocks, i);
      ExtendPrefixes(blocks, i);
    }
  }

  /** De-interleaving gives back every block in full once all columns are there. */
  lemma DeinterleaveAll(blocks: seq<Poly>, n: nat)
    requires Longest(blocks) <= n
    ensures Deinterleaved(Lengths(blocks), Interleaved(blocks, n), n) == blocks
  {
    hide Deinterleaved, Interleaved;
    InterleavingInverts(blocks, n);
  }

  // ---- Blocks ------------------------------------------------------------

  function Repeat(n: nat, x: nat): (s: seq<nat>)
    ensures |s| == n && forall i :: 0 <= i < n ==> s[i] == x
  {
    seq(n, _ => x)
  }

  function BlockLengths(v: Version): seq<nat> {
    var s := Ecl(v);
    Repeat(s.blocks1, s.data1) + Repeat(s.blocks2, s.data2)
  }

  function Sum(lens: seq<nat>): nat {
    if lens == [] then 0 else Sum(lens[..|lens| - 1]) + lens[|lens| - 1]
  }

  /** Consecutive slices of the given lengths. */
  function Cut(bytes: seq<bv8>, lens: seq<nat>): (blocks: seq<Poly>)
    requires |bytes| == Sum(lens)
    ensures |blocks| == |lens|
    decreases |lens|
  {
    if lens == [] then []
    else
      var n := Sum(lens[..|lens| - 1]);
      Cut(bytes[..n], lens[..|lens| - 1]) + [bytes[n..]]
  }

  function Concat(blocks: seq<Poly>): seq<bv8> {
    if blocks == [] then [] else Concat(blocks[..|blocks| - 1]) + blocks[|blocks| - 1]
  }

  lemma {:induction false} ConcatCut(bytes: seq<bv8>, lens: seq<nat>)
    requires |bytes| == Sum(lens)
    ensures Concat(Cut(bytes, lens)) == bytes
    ensures Lengths(Cut(bytes, lens)) == lens
    decreases |lens|
  {
    if lens != [] {
      var init, last := lens[..|lens| - 1], lens[|lens| - 1];
      var n := Sum(init);
      var blocks := Cut(bytes[..n], init);
      assert Cut(bytes, lens) == blocks + [bytes[n..]];
      hide *;
      ConcatCut(bytes[..n], init);
      ConcatLast(blocks, bytes[n..]);
      LengthsLast(blocks, bytes[n..]);
      assert bytes == bytes[..n] + bytes[n..];
      assert lens == init + [last];
    }
  }

  lemma ConcatLast(blocks: seq<Poly>, last: Poly)
    ensures Concat(blocks + [last]) == Concat(blocks) + last
  {
    assert (blocks + [last])[..|blocks|] == blocks;
  }

  lemma LengthsLast(blocks: seq<Poly>, last: Poly)
    ensures Lengths(blocks + [last]) == Lengths(blocks) + [|last|]
  {}

  lemma {:induction false} SumConcat(a: seq<nat>, b: seq<nat>)
    ensures Sum(a + b) == Sum(a) + Sum(b)
  {
    if b == [] {
      assert a + b == a;
    } else {
      SumConcat(a, b[..|b| - 1]);
      assert (a + b)[..|a + b| - 1] == a + b[..|b| - 1];
    }
  }

  lemma {:induction false} SumRepeat(n: nat, x: nat)
    ensures Sum(Repeat(n, x)) == n * x
  {
    if n > 0 {
      SumRepeat(n - 1, x);
      assert Repeat(n, x)[..n - 1] == Repeat(n - 1, x);
    }
  }

  lemma BlockLengthsSum(v: Version)
    ensures Sum(BlockLengths(v)) == TotalData(v)
  {
    var s := Ecl(v);
    SumConcat(Repeat(s.blocks1, s.data1), Repeat(s.blocks2, s.data2));
    SumRepeat(s.blocks1, s.data1);
    SumRepeat(s.blocks2, s.data2);
  }

  function DataBlocks(codewords: seq<bv8>, v: Version): (blocks: seq<Poly>)
    requires |codewords| == TotalData(v)
    ensures |blocks| == Ecl(v).blocks1 + Ecl(v).blocks2
  {
    BlockLengthsSum(v);
    Cut(codewords, BlockLengths(v))
  }

  function EcBlocks(blocks: seq<Poly>, ecCount: nat): (ec: seq<Poly>)
    requires ecCount > 0
    ensures |ec| == |blocks|
    ensures forall b :: 0 <= b < |blocks| ==> ec[b] == RegisterAfter(blocks[b], ecCount)
    ensures forall b :: 0 <= b < |blocks| ==> |ec[b]| == ecCount
  {
    seq(|blocks|, b requires 0 <= b < |blocks| => RegisterAfter(blocks[b], ecCount))
  }

  function Final(codewords: seq<bv8>, v: Version): seq<bv8>
    requires |codewords| == TotalData(v)
  {
    var blocks, ecCount := DataBlocks(codewords, v), Ecl(v).ecPerBlock;
    Interleaved(blocks, Longest(blocks)) + Interleaved(EcBlocks(blocks, ecCount), ecCount)
  }

  lemma {:induction false} InterleavedLength(blocks: seq<Poly>, n: nat)
    requires Longest(blocks) <= n
    ensures |Interleaved(blocks, n)| == Sum(Lengths(blocks))
    decreases |blocks|
  {
    if blocks == [] {
      EmptyColumns(n);
    } else {
      var m := |blocks| - 1;
      InterleavedLength(blocks[..m], n);
      ColumnsOfOneMore(blocks, n);
      assert Lengths(blocks)[..m] == Lengths(blocks[..m]);
    }
  }

  lemma {:induction false} EmptyColumns(n: nat)
    ensures Interleaved([], n) == []
  {
    if n > 0 { EmptyColumns(n - 1); }
  }

  lemma {:induction false} ColumnsOfOneMore(blocks: seq<Poly>, n: nat)
    requires blocks != []
    ensures |Interleaved(blocks, n)|
         == |Interleaved(blocks[..|blocks| - 1], n)| + |Prefix(blocks[|blocks| - 1], n)|
    decreases n
  {
    if n > 0 { ColumnsOfOneMore(blocks, n - 1); }
  }

  lemma UniformBlocks(blocks: seq<Poly>, n: nat)
    requires forall b :: 0 <= b < |blocks| ==> |blocks[b]| == n
    ensures Longest(blocks) <= n
    ensures Sum(Lengths(blocks)) == |blocks| * n
    ensures Lengths(blocks) == Repeat(|blocks|, n)
  {
    LongestAtMost(blocks, n);
    assert Lengths(blocks) == Repeat(|blocks|, n);
    SumRepeat(|blocks|, n);
  }

  lemma FinalLength(codewords: seq<bv8>, v: Version)
    requires |codewords| == TotalData(v)
    ensures |Final(codewords, v)| == TotalBytes(v)
  {
    hide TotalData, Longest, Interleaved, EcBlocks, RegisterAfter, Ecl, BlockLengths;
    var blocks, ecCount := DataBlocks(codewords, v), Ecl(v).ecPerBlock;
    BlockLengthsSum(v);
    ConcatCut(codewords, BlockLengths(v));
    InterleavedLength(blocks, Longest(blocks));
    UniformBlocks(EcBlocks(blocks, ecCount), ecCount);
    InterleavedLength(EcBlocks(blocks, ecCount), ecCount);
  }

  // ---- Building it -------------------------------------------------------

  lemma SumNext(lens: seq<nat>, b: nat)
    requires b < |lens|
    ensures Sum(lens[..b + 1]) == Sum(lens[..b]) + lens[b] <= Sum(lens)
  {
    assert lens[..b + 1][..b] == lens[..b];
    assert lens[..b + 1] + lens[b + 1..] == lens;
    SumConcat(lens[..b + 1], lens[b + 1..]);
  }

  lemma CutLast(bytes: seq<bv8>, lens: seq<nat>, last: nat)
    requires |bytes| == Sum(lens) + last && Sum(lens + [last]) == |bytes|
    ensures Cut(bytes, lens + [last]) == Cut(bytes[..Sum(lens)], lens) + [bytes[Sum(lens)..]]
  {
    assert (lens + [last])[..|lens|] == lens;
  }

  /** One more slice. */
  lemma CutNext(bytes: seq<bv8>, lens: seq<nat>, b: nat)
    requires |bytes| == Sum(lens) && b < |lens| && Sum(lens[..b]) <= |bytes|
    ensures Sum(lens[..b + 1]) == Sum(lens[..b]) + lens[b] <= |bytes|
    ensures Cut(bytes[..Sum(lens[..b + 1])], lens[..b + 1])
         == Cut(bytes[..Sum(lens[..b])], lens[..b]) + [bytes[Sum(lens[..b])..Sum(lens[..b + 1])]]
  {
    hide *;
    SumNext(lens, b);
    var i, j := Sum(lens[..b]), Sum(lens[..b + 1]);
    assert lens[..b + 1] == lens[..b] + [lens[b]];
    CutLast(bytes[..j], lens[..b], lens[b]);
    assert bytes[..j][..i] == bytes[..i] && bytes[..j][i..] == bytes[i..j];
  }

  method CutBlocks(codewords: seq<bv8>, v: Version) returns (blocks: seq<Poly>)
    requires |codewords| == TotalData(v)
    ensures blocks == DataBlocks(codewords, v)
  {
    hide TotalData, Ecl;
    var s := Ecl(v);
    ghost var lens := BlockLengths(v);
    BlockLengthsSum(v);
    var idx := 0;
    blocks := [];
    for b := 0 to s.blocks1 + s.blocks2
      invariant idx == Sum(lens[..b]) <= |codewords|
      invariant blocks == Cut(codewords[..idx], lens[..b])
    {
      // the first loop of the source runs over blocks1, the second over blocks2
      var n := if b < s.blocks1 then s.data1 else s.data2;
      CutNext(codewords, lens, b);
      blocks := blocks + [codewords[idx..idx + n]];
      idx := idx + n;
    }
    assert lens[..|lens|] == lens && codewords[..|codewords|] == codewords;
  }

  /** The two nested loops that push one byte of each block in turn. */
  method Interleave(blocks: seq<Poly>, n: nat) returns (result: seq<bv8>)
    ensures result == Interleaved(blocks, n)
  {
    result := [];
    for i := 0 to n
      invariant result == Interleaved(blocks, i)
    {
      ghost var before := result;
      for bl := 0 to |blocks|
        invariant result == before + Column(blocks[..bl], i)
      {
        assert blocks[..bl + 1][..bl] == blocks[..bl];
        if i < |blocks[bl]| { result := result + [blocks[bl][i]]; }
      }
      assert blocks[..|blocks|] == blocks;
    }
  }

  method BuildFinalSequence(exp: array<bv8>, log: array<nat>, codewords: seq<bv8>, v: Version)
    returns (result: seq<bv8>)
    requires Tables(exp, log)
    requires |codewords| == TotalData(v)
    ensures result == Final(codewords, v)
  {
    hide TotalData, RegisterAfter, Interleaved;
    var ecCount := Ecl(v).ecPerBlock;
    var blocks := CutBlocks(codewords, v);
    var ecBlocks: seq<Poly> := [];
    for b := 0 to |blocks|
      invariant |ecBlocks| == b
      invariant forall k :: 0 <= k < b ==> ecBlocks[k] == RegisterAfter(blocks[k], ecCount)
    {
      var ec := RsEncode(exp, log, blocks[b], ecCount);
      ecBlocks := ecBlocks + [ec];
    }
    assert ecBlocks == EcBlocks(blocks, ecCount);
    var data := Interleave(blocks, Longest(blocks));
    var ec := Interleave(ecBlocks, ecCount);
    result := data + ec;
  }

  // ---- Reading it back ---------------------------------------------------

  /** The length of the longest block of a version. */
  function Columns(v: Version): nat {
    if Ecl(v).blocks2 == 0 then Ecl(v).data1 else Ecl(v).data2
  }

  /** The data bytes block by block, from the final sequence and the version alone. */
  function ReadDataBlocks(final: seq<bv8>, v: Version): (blocks: seq<Poly>)
    ensures |blocks| == Ecl(v).blocks1 + Ecl(v).blocks2
  {
    Deinterleaved(BlockLengths(v), Prefix(final, TotalData(v)), Columns(v))
  }

  function ReadData(final: seq<bv8>, v: Version): seq<bv8> {
    Concat(ReadDataBlocks(final, v))
  }

  /** The error correction bytes, block by block. */
  function ReadEc(final: seq<bv8>, v: Version): (blocks: seq<Poly>)
    ensures |blocks| == Ecl(v).blocks1 + Ecl(v).blocks2
  {
    var s := Ecl(v);
    var rest := if TotalData(v) <= |final| then final[TotalData(v)..] else [];
    Deinterleaved(Repeat(s.blocks1 + s.blocks2, s.ecPerBlock), rest, s.ecPerBlock)
  }

  lemma {:induction false} LongestIs(blocks: seq<Poly>, n: nat, b: nat)
    requires b < |blocks| && |blocks[b]| == n
    requires forall k :: 0 <= k < |blocks| ==> |blocks[k]| <= n
    ensures Longest(blocks) == n
  {
    var m := |blocks| - 1;
    if b < m {
      LongestIs(blocks[..m], n, b);
    } else {
      LongestAtMost(blocks[..m], n);
    }
  }

  lemma {:induction false} LongestAtMost(blocks: seq<Poly>, n: nat)
    requires forall k :: 0 <= k < |blocks| ==> |blocks[k]| <= n
    ensures Longest(blocks) <= n
  {
    if blocks != [] { LongestAtMost(blocks[..|blocks| - 1], n); }
  }

  lemma ColumnsIsLongest(codewords: seq<bv8>, v: Version)
    requires |codewords| == TotalData(v)
    ensures Longest(DataBlocks(codewords, v)) == Columns(v)
    ensures Lengths(DataBlocks(codewords, v)) == BlockLengths(v)
  {
    hide TotalData, Cut;
    var blocks, lens := DataBlocks(codewords, v), BlockLengths(v);
    BlockLengthsSum(v);
    ConcatCut(codewords, lens);
    assert forall k :: 0 <= k < |blocks| ==> |blocks[k]| == Lengths(blocks)[k];
    assert lens[|lens| - 1] == Columns(v);
    LongestIs(blocks, Columns(v), |blocks| - 1);
  }

  /** De-interleaving the final sequence gives back the data and, block by block, the error
      correction bytes that make each block a multiple of the generator. */
  lemma ReadFinal(codewords: seq<bv8>, v: Version)
    requires |codewords| == TotalData(v)
    ensures ReadData(Final(codewords, v), v) == codewords
    ensures ReadDataBlocks(Final(codewords, v), v) == DataBlocks(codewords, v)
    ensures ReadEc(Final(codewords, v), v) == EcBlocks(DataBlocks(codewords, v), Ecl(v).ecPerBlock)
  {
    hide TotalData, Longest, Interleaved, EcBlocks, RegisterAfter, Columns, Deinterleaved, Ecl, BlockLengths;
    var blocks, ecCount := DataBlocks(codewords, v), Ecl(v).ecPerBlock;
    var ec := EcBlocks(blocks, ecCount);
    var (front, back) := (Interleaved(blocks, Columns(v)), Interleaved(ec, ecCount));
    BlockLengthsSum(v);
    ConcatCut(codewords, BlockLengths(v));
    ColumnsIsLongest(codewords, v);
    InterleavedLength(blocks, Columns(v));
    assert (front + back)[..|front|] == front && (front + back)[|front|..] == back;
    assert Final(codewords, v) == front + back && Prefix(front + back, |front|) == front;
    DeinterleaveAll(blocks, Columns(v));
    UniformBlocks(ec, ecCount);
    DeinterleaveAll(ec, ecCount);
  }
}
