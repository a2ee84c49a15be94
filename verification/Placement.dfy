/** Where each data bit goes, in closed form (sections 7.6 to 7.8 of ISO/IEC 18004:2015): the place of every code word
    in the final sequence, the turn of every module in the walk, and the modules each mask flips. */
module Placement {
  import opened Wrappers
  import opened Numbers
  import opened Bits
  import opened Versions
  import opened Layout
  import opened Zigzag
  import opened Symbols
  import opened ReedSolomon
  import opened FinalSequence

  // ---- The walk ----------------------------------------------------------------

  /** Pairs of columns are counted from the right, the timing column left out. */
  function PairOf(n: int, c: int): int {
    (n - 1 - if c > 6 then c else c + 1) / 2
  }

  /** The right one of the pair comes first. */
  function SideOf(n: int, c: int): int {
    (n - 1 - if c > 6 then c else c + 1) % 2
  }

  /** When the walk comes to a module: pair after pair, the even ones upwards, the odd ones downwards. */
  function Turn(n: int, p: Pos): int {
    2 * n * PairOf(n, p.c) + 2 * (if PairOf(n, p.c) % 2 == 0 then n - 1 - p.r else p.r) + SideOf(n, p.c)
  }

  ghost predicate InTurn(n: int, cells: seq<Pos>) {
    forall i, j :: 0 <= i < j < |cells| ==> Turn(n, cells[i]) < Turn(n, cells[j])
  }

  /** Cells of the columns col and col - 1, from step i on: their turns follow one another. */
  lemma {:induction false} PairInTurn(n: nat, col: int, up: bool, i: int)
    requires 0 <= i <= n && n % 2 == 1 && 0 < col < n && col != 6 && SideOf(n, col) == 0 && (up <==> PairOf(n, col) % 2 == 0)
    ensures InTurn(n, PairCells(n, col, up, i))
    ensures forall p :: p in PairCells(n, col, up, i) ==>
      2 * n * PairOf(n, col) + 2 * i <= Turn(n, p) < 2 * n * PairOf(n, col) + 2 * n
    decreases n - i
  {
    if i < n {
      PairInTurn(n, col, up, i + 1);
      var row, rest := RowAt(n, up, i), PairCells(n, col, up, i + 1);
      var a, b := Pos(row, col), Pos(row, col - 1);
      var base := 2 * n * PairOf(n, col);
      assert PairOf(n, col - 1) == PairOf(n, col) && SideOf(n, col - 1) == 1;
      assert Turn(n, a) == base + 2 * i && Turn(n, b) == base + 2 * i + 1;
      assert PairCells(n, col, up, i) == [a, b] + rest;
      hide Turn, PairCells, PairOf, SideOf;
      forall j | 0 <= j < |rest| ensures base + 2 * i + 2 <= Turn(n, rest[j]) {
        assert rest[j] in rest;
      }
    }
  }

  lemma JoinInTurn(n: int, a: seq<Pos>, b: seq<Pos>, bound: int)
    requires InTurn(n, a) && InTurn(n, b)
    requires forall p :: p in a ==> Turn(n, p) < bound
    requires forall p :: p in b ==> bound <= Turn(n, p)
    ensures InTurn(n, a + b)
  {
    hide Turn;
    forall i, j | 0 <= i < j < |a + b| ensures Turn(n, (a + b)[i]) < Turn(n, (a + b)[j]) {
      if i < |a| <= j { assert (a + b)[i] in a && (a + b)[j] in b; }
    }
  }

  /** The next pair of columns to the left. */
  lemma NextPair(n: nat, col: int)
    requires n % 2 == 1 && GoodColumn(col) && 0 < col < n
    ensures var c := SkipTiming(col); 0 < c && c != 6 && SideOf(n, c) == 0 && GoodColumn(c - 2) && SkipTiming(c) == c
    ensures var c := SkipTiming(col); c - 2 > 0 ==> PairOf(n, SkipTiming(c - 2)) == PairOf(n, c) + 1
  {}

  lemma WalkStep(n: nat, col: int, up: bool)
    ensures Walk(n, col, up) ==
      if col <= 0 then [] else PairCells(n, SkipTiming(col), up, 0) + Walk(n, SkipTiming(col) - 2, !up)
  {}

  lemma {:induction false} WalkInTurn(n: nat, col: int, up: bool)
    requires n % 2 == 1 && GoodColumn(col) && -1 <= col < n && (col > 0 ==> (up <==> PairOf(n, SkipTiming(col)) % 2 == 0))
    ensures InTurn(n, Walk(n, col, up))
    ensures forall p :: p in Walk(n, col, up) ==> 2 * n * PairOf(n, SkipTiming(col)) <= Turn(n, p)
    decreases col
  {
    hide Turn, PairCells, PairOf, SideOf, Walk, InTurn;
    WalkStep(n, col, up);
    if col > 0 {
      var c := SkipTiming(col);
      NextPair(n, col);
      PairInTurn(n, c, up, 0);
      var pair, rest, k := PairCells(n, c, up, 0), Walk(n, c - 2, !up), PairOf(n, c);
      WalkStep(n, c - 2, !up);
      assert 2 * n * (k + 1) == 2 * n * k + 2 * n;
      WalkInTurn(n, c - 2, !up);
      JoinInTurn(n, pair, rest, 2 * n * (k + 1));
      forall p | p in pair + rest ensures 2 * n * k <= Turn(n, p) {
        assert p in pair || p in rest;
      }
    } else {
      NoneInTurn(n);
    }
  }

  lemma NoneInTurn(n: nat)
    ensures InTurn(n, [])
  {}

  lemma {:induction false} FreeInTurn(v: Version, cells: seq<Pos>)
    requires InTurn(Size(v), cells)
    ensures InTurn(Size(v), FreeOf(v, cells)) && forall p :: p in FreeOf(v, cells) ==> p in cells
  {
    hide IsFunction, Turn;
    if cells != [] {
      var init, last := cells[..|cells| - 1], cells[|cells| - 1];
      FreeInTurn(v, init);
      var front := FreeOf(v, init);
      forall i | 0 <= i < |front| ensures Turn(Size(v), front[i]) < Turn(Size(v), last) {
        assert front[i] in front;
      }
    }
  }

  /** The free modules come in the order of their turns, which with FreeCellsExact leaves no choice. */
  lemma DataInTurn(v: Version)
    ensures InTurn(Size(v), FreeCells(v))
  {
    hide Walk, FreeOf, InTurn;
    WalkInTurn(Size(v), Size(v) - 1, true);
    FreeInTurn(v, Walk(Size(v), Size(v) - 1, true));
  }

  // ---- Masks -------------------------------------------------------------------

  /** Whether a mask flips a module, by remainders. */
  predicate Flips(mask: nat, r: nat, c: nat) {
    match mask
    case 0 => r % 2 == c % 2
    case 1 => r % 2 == 0
    case 2 => c % 3 == 0
    case 3 => r % 3 + c % 3 == 0 || r % 3 + c % 3 == 3
    case 4 => r % 4 < 2 <==> c % 6 < 3
    case 5 => r * c % 6 == 0
    case 6 => r * c % 6 < 3
    case 7 => r % 2 == c % 2 <==> r * c % 3 != 1
    case _ => false
  }

  lemma SumIsEven(a: nat, b: nat)
    ensures (a + b) % 2 == 0 <==> a % 2 == b % 2
  {}

  lemma SumOfThirds(a: nat, b: nat)
    ensures (a + b) % 3 == 0 <==> a % 3 + b % 3 == 0 || a % 3 + b % 3 == 3
  {
    var x, y := a % 3, b % 3;
    assert a + b == 3 * (a / 3 + b / 3) + (x + y);
    assert x + y >= 3 ==> a + b == 3 * (a / 3 + b / 3 + 1) + (x + y - 3);
  }

  lemma Quarters(a: nat)
    ensures a / 2 % 2 == 0 <==> a % 4 < 2
  {}

  lemma HalvesOfSix(a: nat)
    ensures a / 3 % 2 == 0 <==> a % 6 < 3
  {}

  lemma ManyTwos(p: nat, y: nat)
    ensures (2 * p + y) % 2 == y % 2
  {}

  lemma ManyThrees(p: nat, y: nat)
    ensures (3 * p + y) % 3 == y % 3
  {}

  lemma BelowSix(y: nat)
    requires y < 6
    ensures y == 0 <==> y % 2 + y % 3 == 0
    ensures y < 3 <==> (y % 2 + y % 3) % 2 == 0
  {}

  /** A number by its remainder of six. */
  lemma Sixths(x: nat)
    ensures x % 6 == 0 <==> x % 2 + x % 3 == 0
    ensures x % 6 < 3 <==> (x % 2 + x % 3) % 2 == 0
  {
    var q, y := x / 6, x % 6;
    ManyTwos(3 * q, y);
    ManyThrees(2 * q, y);
    assert 2 * (3 * q) + y == x && 3 * (2 * q) + y == x;
    BelowSix(y);
  }

  lemma ProductMasks(r: nat, c: nat)
    ensures MaskFn(5, r, c) <==> r * c % 2 + r * c % 3 == 0
    ensures MaskFn(6, r, c) <==> (r * c % 2 + r * c % 3) % 2 == 0
    ensures MaskFn(7, r, c) <==> ((r + c) % 2 + r * c % 3) % 2 == 0
  {}

  lemma ProductFlips(r: nat, c: nat)
    ensures Flips(5, r, c) <==> r * c % 6 == 0
    ensures Flips(6, r, c) <==> r * c % 6 < 3
    ensures Flips(7, r, c) <==> (r % 2 == c % 2 <==> r * c % 3 != 1)
  {}

  lemma LastMasks(mask: nat, r: nat, c: nat)
    requires 5 <= mask <= 7
    ensures MaskFn(mask, r, c) <==> Flips(mask, r, c)
  {
    ProductMasks(r, c);
    ProductFlips(r, c);
    hide *;
    Sixths(r * c);
    SumIsEven(r, c);
    SmallEven((r + c) % 2, r * c % 3);
  }

  lemma SmallEven(a: nat, b: nat)
    requires a < 2 && b < 3
    ensures (a + b) % 2 == 0 <==> (a == 0 <==> b != 1)
  {}

  lemma MaskFlips(mask: nat, r: nat, c: nat)
    ensures MaskFn(mask, r, c) <==> Flips(mask, r, c)
  {
    if 5 <= mask <= 7 {
      hide MaskFn, Flips;
      LastMasks(mask, r, c);
    } else {
      SumIsEven(r, c);
      SumOfThirds(r, c);
      Quarters(r);
      HalvesOfSix(c);
      SumIsEven(r / 2, c / 3);
    }
  }

  // ---- The final sequence ------------------------------------------------------

  lemma {:induction false} WidthOfAll(lens: seq<nat>, i: nat)
    requires forall b :: 0 <= b < |lens| ==> i < lens[b]
    ensures Width(lens, i) == |lens|
  {
    if lens != [] { WidthOfAll(lens[..|lens| - 1], i); }
  }

  lemma {:induction false} WidthOfNone(lens: seq<nat>, i: nat)
    requires forall b :: 0 <= b < |lens| ==> lens[b] <= i
    ensures Width(lens, i) == 0
  {
    if lens != [] { WidthOfNone(lens[..|lens| - 1], i); }
  }

  lemma {:induction false} WidthOfBoth(a: seq<nat>, b: seq<nat>, i: nat)
    ensures Width(a + b, i) == Width(a, i) + Width(b, i)
  {
    if b == [] {
      assert a + b == a;
    } else {
      WidthOfBoth(a, b[..|b| - 1], i);
      assert (a + b)[..|a + b| - 1] == a + b[..|b| - 1];
    }
  }

  /** Columns that every block reaches are as wide as there are blocks. */
  lemma {:induction false} FullColumns(blocks: seq<Poly>, i: nat)
    requires forall b :: 0 <= b < |blocks| ==> i <= |blocks[b]|
    ensures |Interleaved(blocks, i)| == i * |blocks|
  {
    hide Column;
    if i > 0 {
      FullColumns(blocks, i - 1);
      ColumnWidth(blocks, i - 1);
      WidthOfAll(Lengths(blocks), i - 1);
      assert i * |blocks| == (i - 1) * |blocks| + |blocks|;
    }
  }

  /** Column i stands behind the earlier columns. */
  lemma {:induction false} ColumnStands(blocks: seq<Poly>, n: nat, i: nat, k: nat)
    requires i < n && k < |Column(blocks, i)|
    ensures |Interleaved(blocks, i)| + k < |Interleaved(blocks, n)|
    ensures Interleaved(blocks, n)[|Interleaved(blocks, i)| + k] == Column(blocks, i)[k]
    decreases n
  {
    hide Column;
    if i < n - 1 { ColumnStands(blocks, n - 1, i, k); }
  }

  /** Byte i of block b comes after the earlier columns and the earlier blocks of its column. */
  lemma InterleavedAt(blocks: seq<Poly>, lens: seq<nat>, n: nat, b: nat, i: nat)
    requires lens == Lengths(blocks) && b < |blocks| && i < lens[b] && i < n
    requires forall k :: 0 <= k < |lens| ==> i <= lens[k]
    ensures InterleavedIndex(lens, b, i) < |Interleaved(blocks, n)|
    ensures Interleaved(blocks, n)[InterleavedIndex(lens, b, i)] == blocks[b][i]
  {
    hide Column, Interleaved, Width;
    ColumnAt(blocks, b, i);
    ColumnStands(blocks, n, i, Width(lens[..b], i));
    FullColumns(blocks, i);
  }

  function InterleavedIndex(lens: seq<nat>, b: nat, i: nat): nat
    requires b < |lens|
  {
    i * |lens| + Width(lens[..b], i)
  }

  /** Where a data byte stands: the blocks take turns, and the longer ones go on alone with their last byte. */
  function DataPlace(v: Version, b: nat, i: nat): nat {
    var s := Ecl(v);
    i * (s.blocks1 + s.blocks2) + if i < s.data1 then b else Minus(b, s.blocks1)
  }

  function Minus(x: nat, y: nat): nat {
    if y <= x then x - y else 0
  }

  /** The first code word of a block. */
  function BlockStart(v: Version, b: nat): nat {
    b * Ecl(v).data1 + Minus(b, Ecl(v).blocks1)
  }

  lemma LongerByOne(v: Version)
    ensures Ecl(v).blocks2 == 0 || Ecl(v).data2 == Ecl(v).data1 + 1
  {}

  lemma {:induction false} CutAt(bytes: seq<bv8>, lens: seq<nat>, b: nat, i: nat)
    requires |bytes| == Sum(lens) && b < |lens| && i < lens[b]
    ensures |Cut(bytes, lens)[b]| == lens[b] && Sum(lens[..b]) + i < |bytes|
    ensures Cut(bytes, lens)[b][i] == bytes[Sum(lens[..b]) + i]
    decreases |lens|
  {
    var m := |lens| - 1;
    var init := lens[..m];
    if b < m {
      CutAt(bytes[..Sum(init)], init, b, i);
      assert init[..b] == lens[..b];
    }
  }

  lemma StartOf(n1: nat, d1: nat, n2: nat, d2: nat, b: nat)
    requires b <= n1 + n2 && (n2 == 0 || d2 == d1 + 1)
    ensures Sum((Repeat(n1, d1) + Repeat(n2, d2))[..b]) == b * d1 + Minus(b, n1)
  {
    if b <= n1 {
      assert (Repeat(n1, d1) + Repeat(n2, d2))[..b] == Repeat(b, d1);
      SumRepeat(b, d1);
    } else {
      var k := b - n1;
      assert (Repeat(n1, d1) + Repeat(n2, d2))[..b] == Repeat(n1, d1) + Repeat(k, d2);
      hide *;
      SumConcat(Repeat(n1, d1), Repeat(k, d2));
      SumRepeat(n1, d1);
      SumRepeat(k, d2);
      Distribute(n1, k, d1);
      assert Minus(b, n1) == k by { MinusIs(b, n1); }
    }
  }

  lemma MinusIs(x: nat, y: nat)
    requires y <= x
    ensures Minus(x, y) == x - y
  {}

  lemma Distribute(n: nat, k: nat, d: nat)
    ensures n * d + k * (d + 1) == (n + k) * d + k
  {}

  /** The blocks of a version: how long they are and which byte stands where. */
  lemma BlockBytes(codewords: seq<bv8>, v: Version, b: nat, i: nat)
    requires |codewords| == TotalData(v) && b < Ecl(v).blocks1 + Ecl(v).blocks2 && i < BlockLengths(v)[b]
    ensures |DataBlocks(codewords, v)[b]| == BlockLengths(v)[b]
    ensures BlockStart(v, b) + i < |codewords| && DataBlocks(codewords, v)[b][i] == codewords[BlockStart(v, b) + i]
  {
    var s := Ecl(v);
    hide Ecl, TotalData, Cut, Sum;
    BlockLengthsSum(v);
    LongerByOne(v);
    CutAt(codewords, BlockLengths(v), b, i);
    StartOf(s.blocks1, s.data1, s.blocks2, s.data2, b);
  }

  /** How many of the blocks before b reach column i. */
  lemma WidthBefore(v: Version, b: nat, i: nat)
    requires b < Ecl(v).blocks1 + Ecl(v).blocks2 && i < BlockLengths(v)[b]
    ensures Width(BlockLengths(v)[..b], i) == if i < Ecl(v).data1 then b else Minus(b, Ecl(v).blocks1)
  {
    var s := Ecl(v);
    LongerByOne(v);
    hide Ecl, Width;
    var lens := BlockLengths(v);
    if i < s.data1 {
      WidthOfAll(lens[..b], i);
    } else {
      assert lens[..b] == Repeat(s.blocks1, s.data1) + Repeat(b - s.blocks1, s.data2);
      WidthOfBoth(Repeat(s.blocks1, s.data1), Repeat(b - s.blocks1, s.data2), i);
      WidthOfNone(Repeat(s.blocks1, s.data1), i);
      WidthOfAll(Repeat(b - s.blocks1, s.data2), i);
    }
  }

  lemma SameLengths(codewords: seq<bv8>, v: Version)
    requires |codewords| == TotalData(v)
    ensures Lengths(DataBlocks(codewords, v)) == BlockLengths(v)
  {
    hide TotalData, Cut, BlockLengths;
    BlockLengthsSum(v);
    ConcatCut(codewords, BlockLengths(v));
  }

  lemma ShortestFirst(v: Version, b: nat, i: nat)
    requires b < Ecl(v).blocks1 + Ecl(v).blocks2 && i < BlockLengths(v)[b]
    ensures forall k :: 0 <= k < |BlockLengths(v)| ==> i <= BlockLengths(v)[k]
  {
    LongerByOne(v);
    hide Ecl;
  }

  lemma PlaceIs(v: Version, b: nat, i: nat)
    requires b < Ecl(v).blocks1 + Ecl(v).blocks2 && i < BlockLengths(v)[b]
    ensures InterleavedIndex(BlockLengths(v), b, i) == DataPlace(v, b, i)
  {
    hide Ecl, Width, Minus;
    WidthBefore(v, b, i);
  }

  /** The two halves of the final sequence. */
  function DataHalf(codewords: seq<bv8>, v: Version): (half: seq<bv8>)
    requires |codewords| == TotalData(v)
    ensures |half| == TotalData(v)
  {
    SameLengths(codewords, v);
    BlockLengthsSum(v);
    InterleavedLength(DataBlocks(codewords, v), Longest(DataBlocks(codewords, v)));
    Interleaved(DataBlocks(codewords, v), Longest(DataBlocks(codewords, v)))
  }

  function EcHalf(codewords: seq<bv8>, v: Version): seq<bv8>
    requires |codewords| == TotalData(v)
  {
    Interleaved(EcBlocks(DataBlocks(codewords, v), Ecl(v).ecPerBlock), Ecl(v).ecPerBlock)
  }

  lemma TwoHalves(codewords: seq<bv8>, v: Version)
    requires |codewords| == TotalData(v)
    ensures Final(codewords, v) == DataHalf(codewords, v) + EcHalf(codewords, v)
  {
    hide Ecl, TotalData, Interleaved, DataBlocks, EcBlocks, Longest;
  }

  lemma LongEnough(blocks: seq<Poly>, b: nat, i: nat)
    requires b < |blocks| && i < |blocks[b]|
    ensures i < Longest(blocks)
  {}

  /** Every code word of the final sequence has the place that section 7.6 gives it. */
  lemma DataByteStands(codewords: seq<bv8>, v: Version, b: nat, i: nat)
    requires |codewords| == TotalData(v) && b < Ecl(v).blocks1 + Ecl(v).blocks2 && i < BlockLengths(v)[b]
    ensures BlockStart(v, b) + i < |codewords| && DataPlace(v, b, i) < |Final(codewords, v)|
    ensures Final(codewords, v)[DataPlace(v, b, i)] == codewords[BlockStart(v, b) + i]
  {
    hide *;
    SameLengths(codewords, v);
    ShortestFirst(v, b, i);
    BlockBytes(codewords, v, b, i);
    LongEnough(DataBlocks(codewords, v), b, i);
    InterleavedAt(DataBlocks(codewords, v), BlockLengths(v), Longest(DataBlocks(codewords, v)), b, i);
    PlaceIs(v, b, i);
    TwoHalves(codewords, v);
    FrontIs(codewords, v);
  }

  lemma FrontIs(codewords: seq<bv8>, v: Version)
    requires |codewords| == TotalData(v)
    ensures DataHalf(codewords, v) == Interleaved(DataBlocks(codewords, v), Longest(DataBlocks(codewords, v)))
  {
    hide Ecl, TotalData, Interleaved, DataBlocks, Longest;
  }

  function EcPlace(v: Version, b: nat, i: nat): nat {
    TotalData(v) + i * (Ecl(v).blocks1 + Ecl(v).blocks2) + b
  }

  lemma EcPlaceIs(blocks: seq<Poly>, n: nat, b: nat, i: nat)
    requires n > 0 && b < |blocks| && i < n
    ensures InterleavedIndex(Lengths(EcBlocks(blocks, n)), b, i) == i * |blocks| + b
  {
    hide RegisterAfter, Width;
    WidthOfAll(Lengths(EcBlocks(blocks, n))[..b], i);
  }

  lemma EcHalfAt(blocks: seq<Poly>, n: nat, b: nat, i: nat)
    requires n > 0 && b < |blocks| && i < n
    ensures i * |blocks| + b < |Interleaved(EcBlocks(blocks, n), n)|
    ensures Interleaved(EcBlocks(blocks, n), n)[i * |blocks| + b] == EcBlocks(blocks, n)[b][i]
  {
    hide Interleaved, RegisterAfter, Width, InterleavedIndex;
    var ec := EcBlocks(blocks, n);
    EcPlaceIs(blocks, n, b, i);
    InterleavedAt(ec, Lengths(ec), n, b, i);
  }

  /** The error correction bytes follow in the same turns. */
  lemma EcByteStands(codewords: seq<bv8>, v: Version, b: nat, i: nat)
    requires |codewords| == TotalData(v) && b < Ecl(v).blocks1 + Ecl(v).blocks2 && i < Ecl(v).ecPerBlock
    ensures EcPlace(v, b, i) < |Final(codewords, v)|
    ensures Final(codewords, v)[EcPlace(v, b, i)] == EcBlocks(DataBlocks(codewords, v), Ecl(v).ecPerBlock)[b][i]
  {
    hide Ecl, TotalData, Interleaved, DataBlocks, EcBlocks, DataHalf, Final;
    EcHalfAt(DataBlocks(codewords, v), Ecl(v).ecPerBlock, b, i);
    TwoHalves(codewords, v);
  }
}
