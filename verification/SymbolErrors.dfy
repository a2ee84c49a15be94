/** What the error correction bytes in a finished symbol are for: its blocks belong to the code, and a
    damaged grid still determines what was encoded. */
module SymbolErrors {
  import opened Wrappers
  import opened Bits
  import opened Versions
  import opened GF256
  import opened ReedSolomon
  import opened RSDistance
  import opened FinalSequence
  import Bch
  import Encodation
  import opened Symbols
  import Zigzag

  /** The blocks of a grid: their data bytes followed by their error correction bytes. */
  function BlocksOf(final: seq<bv8>, v: Version): (blocks: seq<Poly>)
    ensures |blocks| == Ecl(v).blocks1 + Ecl(v).blocks2
  {
    seq(Ecl(v).blocks1 + Ecl(v).blocks2, b requires 0 <= b < Ecl(v).blocks1 + Ecl(v).blocks2 =>
      ReadDataBlocks(final, v)[b] + ReadEc(final, v)[b])
  }

  function ReadBlocks(g: Grid, v: Version, mask: nat): (blocks: seq<Poly>)
    requires Square(g, Size(v))
    ensures |blocks| == Ecl(v).blocks1 + Ecl(v).blocks2
  {
    BlocksOf(FinalBytes(g, v, mask), v)
  }

  /** The symbol of a sequence of code words. */
  ghost function SymbolOf(codewords: seq<bv8>, v: Version, mask: nat): Grid
    requires |codewords| == TotalData(v)
  {
    Symbol(v, Stream(Final(codewords, v)), mask)
  }

  /** Every block is a data block of the code words with its error correction bytes. */
  lemma BlockReadBack(codewords: seq<bv8>, v: Version, mask: nat, b: nat)
    requires |codewords| == TotalData(v) && b < Ecl(v).blocks1 + Ecl(v).blocks2
    ensures ReadBlocks(SymbolOf(codewords, v, mask), v, mask)[b] == Codeword(DataBlocks(codewords, v)[b], Ecl(v).ecPerBlock)
  {
    hide FinalBytes, Final, Stream, Symbol, ReadDataBlocks, ReadEc, RegisterAfter, DataBlocks, Ecl, TotalData;
    FinalReadBack(v, codewords, mask);
    ReadFinal(codewords, v);
  }

  /** Section 7.5 of the finished grid: each of its blocks vanishes at alpha^0 .. alpha^(ecCount-1). */
  lemma BlocksVanish(codewords: seq<bv8>, v: Version, mask: nat, b: nat, j: nat)
    requires |codewords| == TotalData(v) && b < Ecl(v).blocks1 + Ecl(v).blocks2 && j < Ecl(v).ecPerBlock
    ensures Eval(ReadBlocks(SymbolOf(codewords, v, mask), v, mask)[b], Alpha(j)) == 0
  {
    hide Eval, Alpha, ReadBlocks, SymbolOf, Codeword, DataBlocks, Ecl, TotalData;
    BlockReadBack(codewords, v, mask, b);
    CodewordVanishes(DataBlocks(codewords, v)[b], Ecl(v).ecPerBlock, j);
  }

  // ---- Damage -----------------------------------------------------------------------

  /** How long de-interleaved blocks are does not depend on the bytes. */
  lemma {:induction false} SameShape(lens: seq<nat>, s: seq<bv8>, t: seq<bv8>, n: nat)
    requires |s| == |t|
    ensures Lengths(Deinterleaved(lens, s, n)) == Lengths(Deinterleaved(lens, t, n))
    decreases n
  {
    hide Extend, Lengths, Width;
    if n > 0 {
      var w := Width(lens, n - 1);
      var cut := if w <= |s| then |s| - w else 0;
      SameShape(lens, s[..cut], t[..cut], n - 1);
      ExtendShape(Deinterleaved(lens, s[..cut], n - 1), Deinterleaved(lens, t[..cut], n - 1), lens, s[cut..], t[cut..], n - 1);
    }
  }

  lemma ExtendShape(front: seq<Poly>, front': seq<Poly>, lens: seq<nat>, column: seq<bv8>, column': seq<bv8>, i: nat)
    requires |front| == |front'| == |lens| && Lengths(front) == Lengths(front') && |column| == |column'|
    ensures Lengths(Extend(front, lens, column, i)) == Lengths(Extend(front', lens, column', i))
  {
    hide Width;
    assert forall b :: 0 <= b < |lens| ==> |front[b]| == Lengths(front)[b] && |front'[b]| == Lengths(front')[b];
  }

  lemma SameBlockLength(final: seq<bv8>, final': seq<bv8>, v: Version, b: nat)
    requires |final| == |final'| && b < Ecl(v).blocks1 + Ecl(v).blocks2
    ensures |BlocksOf(final, v)[b]| == |BlocksOf(final', v)[b]|
  {
    hide Deinterleaved, Ecl, TotalData, Columns;
    var (d, d', e, e') := (ReadDataBlocks(final, v), ReadDataBlocks(final', v), ReadEc(final, v), ReadEc(final', v));
    assert Lengths(d) == Lengths(d') by {
      SameShape(BlockLengths(v), Prefix(final, TotalData(v)), Prefix(final', TotalData(v)), Columns(v));
    }
    assert Lengths(e) == Lengths(e') by {
      var rest, rest' := if TotalData(v) <= |final| then final[TotalData(v)..] else [], if TotalData(v) <= |final'| then final'[TotalData(v)..] else [];
      SameShape(Repeat(Ecl(v).blocks1 + Ecl(v).blocks2, Ecl(v).ecPerBlock), rest, rest', Ecl(v).ecPerBlock);
    }
    assert Lengths(d)[b] == Lengths(d')[b] && Lengths(e)[b] == Lengths(e')[b];
  }

  /** Block b of a grid differs from block b of a symbol in at most half as many bytes as it has error
      correction bytes. */
  predicate Correctable(g: Grid, codewords: seq<bv8>, v: Version, mask: nat, b: nat)
    requires Square(g, Size(v)) && |codewords| == TotalData(v) && b < Ecl(v).blocks1 + Ecl(v).blocks2
  {
    var read, sent := ReadBlocks(g, v, mask)[b], Codeword(DataBlocks(codewords, v)[b], Ecl(v).ecPerBlock);
    |read| == |sent| && 2 * Distance(sent, read) <= Ecl(v).ecPerBlock
  }

  lemma {:induction false} DistanceSwaps(a: Poly, b: Poly)
    requires |a| == |b|
    ensures Distance(a, b) == Distance(b, a)
  {
    if a != [] {
      DistanceSwaps(a[..|a| - 1], b[..|b| - 1]);
    }
  }

  lemma SameBlock(g: Grid, codewords: seq<bv8>, codewords': seq<bv8>, v: Version, mask: nat, b: nat)
    requires Square(g, Size(v)) && |codewords| == |codewords'| == TotalData(v) && b < Ecl(v).blocks1 + Ecl(v).blocks2
    requires Correctable(g, codewords, v, mask, b) && Correctable(g, codewords', v, mask, b)
    ensures DataBlocks(codewords, v)[b] == DataBlocks(codewords', v)[b]
  {
    hide ReadBlocks, RegisterAfter, Distance, TotalData;
    var d, d', read, n := DataBlocks(codewords, v)[b], DataBlocks(codewords', v)[b], ReadBlocks(g, v, mask)[b], Ecl(v).ecPerBlock;
    BlockLength(codewords, v, b);
    BlockLength(codewords', v, b);
    DistanceSwaps(Codeword(d', n), read);
    CorrectableErrors(read, d, d', n);
  }

  lemma BlockLength(codewords: seq<bv8>, v: Version, b: nat)
    requires |codewords| == TotalData(v) && b < Ecl(v).blocks1 + Ecl(v).blocks2
    ensures |DataBlocks(codewords, v)[b]| == BlockLengths(v)[b] <= 121
  {
    hide Cut, TotalData;
    BlockLengthsSum(v);
    ConcatCut(codewords, BlockLengths(v));
    assert Lengths(DataBlocks(codewords, v))[b] == BlockLengths(v)[b];
  }

  lemma SameMaskSameInput(g: Grid, v: Version, mask: nat, bytes: seq<bv8>, codewords: seq<bv8>, bytes': seq<bv8>,
      codewords': seq<bv8>)
    requires Square(g, Size(v)) && |codewords| == |codewords'| == TotalData(v)
    requires Encodation.Fits(|bytes|, v) && Stream(codewords) == Encodation.EncodedStream(bytes, v)
    requires Encodation.Fits(|bytes'|, v) && Stream(codewords') == Encodation.EncodedStream(bytes', v)
    requires forall b :: 0 <= b < Ecl(v).blocks1 + Ecl(v).blocks2 ==>
      Correctable(g, codewords, v, mask, b) && Correctable(g, codewords', v, mask, b)
    ensures bytes == bytes'
  {
    hide Stream, Encodation.EncodedStream, Encodation.Fits, Encodation.Parse, Correctable, DataBlocks, TotalData, Ecl;
    var blocks, blocks' := DataBlocks(codewords, v), DataBlocks(codewords', v);
    forall b | 0 <= b < |blocks| ensures blocks[b] == blocks'[b] {
      SameBlock(g, codewords, codewords', v, mask, b);
    }
    assert blocks == blocks';
    JoinedAgain(codewords, v);
    JoinedAgain(codewords', v);
    Encodation.ParseEncoded(bytes, v, codewords);
    Encodation.ParseEncoded(bytes', v, codewords');
  }

  /** A grid that differs from a symbol in at most three of the fifteen format bits and, in each block, in at
      most half as many bytes as the block has error correction bytes. */
  ghost predicate Damaged(g: Grid, codewords: seq<bv8>, v: Version, mask: nat)
    requires Square(g, Size(v)) && |codewords| == TotalData(v)
  {
    |Bch.Differing(ReadFormat(SymbolOf(codewords, v, mask)), ReadFormat(g))| <= 3 &&
    forall b :: 0 <= b < Ecl(v).blocks1 + Ecl(v).blocks2 ==> Correctable(g, codewords, v, mask, b)
  }

  /** Such a grid comes from one input and one mask only. */
  lemma DamagedDeterminesInput(g: Grid, v: Version, mask: nat, bytes: seq<bv8>, codewords: seq<bv8>, mask': nat,
      bytes': seq<bv8>, codewords': seq<bv8>)
    requires Square(g, Size(v)) && |codewords| == |codewords'| == TotalData(v) && mask < 8 && mask' < 8
    requires Encodation.Fits(|bytes|, v) && Stream(codewords) == Encodation.EncodedStream(bytes, v)
    requires Encodation.Fits(|bytes'|, v) && Stream(codewords') == Encodation.EncodedStream(bytes', v)
    requires Damaged(g, codewords, v, mask) && Damaged(g, codewords', v, mask')
    ensures bytes == bytes' && mask == mask'
  {
    hide Stream, Encodation.EncodedStream, Encodation.Fits, Correctable, TotalData, Ecl, Symbol, Final, ReadFormat,
      Bch.FormatWord, Bch.Differing;
    FormatReadBack(v, Stream(Final(codewords, v)), mask);
    FormatReadBack(v, Stream(Final(codewords', v)), mask');
    Bch.FormatSurvives(ReadFormat(g), mask, mask');
    SameMaskSameInput(g, v, mask, bytes, codewords, bytes', codewords');
  }

  lemma JoinedAgain(codewords: seq<bv8>, v: Version)
    requires |codewords| == TotalData(v)
    ensures Concat(DataBlocks(codewords, v)) == codewords
  {
    hide TotalData, BlockLengths;
    BlockLengthsSum(v);
    ConcatCut(codewords, BlockLengths(v));
  }

  /** Blocks are as long in any grid as in a symbol, so how far apart they are can be asked of any grid. */
  lemma SameLengthInAnyGrid(g: Grid, codewords: seq<bv8>, v: Version, mask: nat, b: nat)
    requires Square(g, Size(v)) && |codewords| == TotalData(v) && b < Ecl(v).blocks1 + Ecl(v).blocks2
    ensures |ReadBlocks(g, v, mask)[b]| == |Codeword(DataBlocks(codewords, v)[b], Ecl(v).ecPerBlock)|
  {
    hide Final, Stream, Symbol, RegisterAfter, DataBlocks, Ecl, TotalData, BlocksOf, Codeword, FinalBytes;
    BlockReadBack(codewords, v, mask, b);
    FinalReadBack(v, codewords, mask);
    FinalLength(codewords, v);
    FinalBytesLength(g, v, mask);
    SameBlockLength(FinalBytes(g, v, mask), Final(codewords, v), v, b);
  }

  lemma FinalBytesLength(g: Grid, v: Version, mask: nat)
    requires Square(g, Size(v))
    ensures |FinalBytes(g, v, mask)| == TotalBytes(v)
  {
    hide Zigzag.FreeCells, TotalBytes, ReadCells, Pack;
    Zigzag.FreeCellsExact(v);
  }
}
