/** generate: from bytes to the symbol with the best mask, and back. */
module Generator {
  import opened Wrappers
  import opened Bits
  import opened Versions
  import opened Layout
  import opened Counting
  import opened Zigzag
  import opened Encodation
  import opened GFTables
  import opened Symbols
  import opened SymbolErrors
  import opened Penalty
  import opened Drawing
  import opened Patterns
  import FinalSequence
  import GF256
  import ReedSolomon
  import Bch

  /** The dark modules of a finished matrix. */
  function Picture(M: Matrix): (g: Grid)
    requires M.m.Length0 == M.size && M.m.Length1 == M.size
    reads M.m
    ensures |g| == M.size && forall r :: 0 <= r < M.size ==> |g[r]| == M.size
    ensures forall r, c :: 0 <= r < M.size && 0 <= c < M.size ==> (g[r][c] <==> M.m[r, c] == Some(true))
  {
    seq(M.size, r requires 0 <= r < M.size && M.m.Length0 == M.m.Length1 == M.size reads M.m =>
      seq(M.size, c requires 0 <= c < M.size && M.m.Length0 == M.m.Length1 == M.size reads M.m => M.m[r, c] == Some(true)))
  }

  /** The body of the mask loop: clone the base, draw data, format and version. */
  method DrawMask(base: Matrix, v: Version, bits: seq<bool>, mask: nat) returns (M: Matrix)
    requires base.Valid() && base.size == Size(v)
    requires forall r, c :: base.Inside(r, c) ==> base.At(r, c) == Cell(BaseValue(v, r, c), IsFunction(v, r, c))
    ensures M.Valid() && M.size == Size(v) && fresh(M.m) && fresh(M.fn)
    ensures forall r, c :: M.Inside(r, c) ==> M.m[r, c] == Some(ModuleAt(v, bits, mask, r, c))
  {
    hide IsFunction, BaseValue, MaskFn, FreeCells, FormatBit, VersionBit, Bch.FormatWord, Bch.VersionWord, IndexOf;
    M := new Matrix.Clone(base);
    M.PlaceData(v, bits, mask);
    label drawn: M.PlaceFormat(mask);
    M.PlaceVersion(v);
    FreeCellsExact(v);
    forall r, c | M.Inside(r, c) ensures M.m[r, c] == Some(ModuleAt(v, bits, mask, r, c)) {
      FunctionModules(v, r, c);
      FormatRange(v, r, c);
      if !IsFunction(v, r, c) {
        assert Pos(r, c) in FreeCells(v);
        var k := IndexOf(FreeCells(v), Pos(r, c));
        assert old@drawn(M.m[r, c]) == Some(DataBit(bits, k) != MaskFn(mask, r, c));
      }
    }
  }

  lemma FormatRange(v: Version, r: int, c: int)
    ensures FormatBit(Size(v), r, c).Some? ==> FormatBit(Size(v), r, c).value < 15
    ensures VersionBit(v, r, c).Some? ==> VersionBit(v, r, c).value < 18
  {}

  method BitsOf(bytes: seq<bv8>) returns (bits: seq<bool>)
    ensures bits == Stream(bytes)
  {
    bits := [];
    for b := 0 to |bytes|
      invariant bits == Stream(bytes[..b])
    {
      assert bytes[..b + 1][..b] == bytes[..b];
      bits := PutByte(bits, bytes[b]);
    }
    assert bytes[..|bytes|] == bytes;
  }

  lemma PictureIsSymbol(M: Matrix, v: Version, bits: seq<bool>, mask: nat)
    requires M.Valid() && M.size == Size(v)
    requires forall r, c :: M.Inside(r, c) ==> M.m[r, c] == Some(ModuleAt(v, bits, mask, r, c))
    ensures Picture(M) == Symbol(v, bits, mask)
  {
    hide ModuleAt;
    var g, s := Picture(M), Symbol(v, bits, mask);
    forall r | 0 <= r < Size(v) ensures g[r] == s[r] {
      forall c | 0 <= c < Size(v) ensures g[r][c] == s[r][c] {
        assert M.Inside(r, c);
      }
    }
  }

  /** The mask loop: the first symbol with the lowest score. */
  method BestMask(v: Version, bits: seq<bool>) returns (best: Matrix, ghost mask: nat)
    ensures best.Valid() && best.size == Size(v)
    ensures forall r, c :: best.Inside(r, c) ==> best.m[r, c].Some?
    ensures mask < 8 && Picture(best) == Symbol(v, bits, mask)
    ensures forall k :: 0 <= k < 8 ==> Score(Symbol(v, bits, mask), Size(v)) <= Score(Symbol(v, bits, k), Size(v))
    ensures forall k :: 0 <= k < mask ==> Score(Symbol(v, bits, mask), Size(v)) < Score(Symbol(v, bits, k), Size(v))
  {
    hide Symbol, IsFunction, BaseValue, Picture, ModuleAt, Score;
    var base := BuildBase(v);
    best := DrawMask(base, v, bits, 0);
    mask := 0;
    PictureIsSymbol(best, v, bits, 0);
    var bestScore := ComputePenalty(Picture(best), Size(v));
    for k := 1 to 8
      invariant forall r, c :: base.Inside(r, c) ==> base.At(r, c) == Cell(BaseValue(v, r, c), IsFunction(v, r, c))
      invariant best.Valid() && best.size == Size(v)
      invariant forall r, c :: best.Inside(r, c) ==> best.m[r, c].Some?
      invariant mask < k && Picture(best) == Symbol(v, bits, mask) && bestScore == Score(Symbol(v, bits, mask), Size(v))
      invariant forall l :: 0 <= l < k ==> bestScore <= Score(Symbol(v, bits, l), Size(v))
      invariant forall l :: 0 <= l < mask ==> bestScore < Score(Symbol(v, bits, l), Size(v))
    {
      var M := DrawMask(base, v, bits, k);
      PictureIsSymbol(M, v, bits, k);
      var p := ComputePenalty(Picture(M), Size(v));
      if p < bestScore {
        bestScore, best, mask := p, M, k;
      }
    }
  }

  /** The whole encoder. None stands for the error thrown when the data is too long. Otherwise the
      result is the symbol of the first mask with the lowest penalty, drawn from the final sequence of
      code words that spell the input; a scanner finds its patterns and reads the input back, and each of its blocks
      is a code word of the error correcting code. */
  method Generate(exp: array<bv8>, log: array<nat>, bytes: seq<bv8>)
    returns (best: Option<Matrix>, ghost v: Version, ghost codewords: seq<bv8>, ghost mask: nat)
    requires Tables(exp, log)
    ensures best == None <==> |bytes| > 858
    ensures best.Some? ==> Fits(|bytes|, v) && forall u: Version :: u < v ==> !Fits(|bytes|, u)
    ensures best.Some? ==> best.value.Valid() && best.value.size == Size(v)
    ensures best.Some? ==> forall r, c :: best.value.Inside(r, c) ==> best.value.m[r, c].Some?
    ensures best.Some? ==> |codewords| == TotalData(v) && Stream(codewords) == EncodedStream(bytes, v)
    ensures best.Some? ==> mask < 8 && Picture(best.value) == SymbolOf(codewords, v, mask)
    ensures best.Some? ==>
      forall k :: 0 <= k < 8 ==> Score(SymbolOf(codewords, v, mask), Size(v)) <= Score(SymbolOf(codewords, v, k), Size(v))
    ensures best.Some? ==>
      forall k :: 0 <= k < mask ==> Score(SymbolOf(codewords, v, mask), Size(v)) < Score(SymbolOf(codewords, v, k), Size(v))
    ensures best.Some? ==> Recognisable(Picture(best.value), v)
    ensures best.Some? ==> Decode(Picture(best.value)) == Some(bytes)
    ensures best.Some? ==>
      var blocks := ReadBlocks(Picture(best.value), v, mask);
      forall b, j :: 0 <= b < |blocks| && 0 <= j < Ecl(v).ecPerBlock ==> ReedSolomon.Eval(blocks[b], GF256.Alpha(j)) == 0
  {
    hide Score, Fits, Decode, Symbol, Stream, TotalData, EncodedStream, FinalSequence.Final, Picture, Ecl,
      ReadBlocks, ReedSolomon.Eval, GF256.Alpha, Recognisable;
    best, codewords, mask := None, [], 0;
    var choice := ChooseVersion(|bytes|);
    if choice == None { v := 1; return; }
    v := choice.value;
    var encoded := EncodeData(bytes, choice.value);
    codewords := encoded;
    var finalSeq := FinalSequence.BuildFinalSequence(exp, log, encoded, choice.value);
    var stream := BitsOf(finalSeq);
    var M;
    M, mask := BestMask(choice.value, stream);
    best := Some(M);
    SymbolRecognisable(v, stream, mask);
    DecodeSymbol(bytes, v, codewords, mask);
    forall b, j | 0 <= b < Ecl(v).blocks1 + Ecl(v).blocks2 && 0 <= j < Ecl(v).ecPerBlock
      ensures ReedSolomon.Eval(ReadBlocks(Picture(M), v, mask)[b], GF256.Alpha(j)) == 0
    {
      BlocksVanish(codewords, v, mask, b, j);
    }
  }
}
