/** A finished symbol as a pure value, and how a scanner reads it. */
module Symbols {
  import opened Wrappers
  import opened Numbers
  import opened Bits
  import opened Versions
  import opened Layout
  import opened Counting
  import opened Zigzag
  import opened Encodation
  import FinalSequence
  import Bch

  type Grid = seq<seq<bool>>

  // ---- Masks (section 7.8) -----------------------------------------------

  function MaskFn(mask: nat, r: nat, c: nat): bool {
    match mask
    case 0 => (r + c) % 2 == 0
    case 1 => r % 2 == 0
    case 2 => c % 3 == 0
    case 3 => (r + c) % 3 == 0
    case 4 => (r / 2 + c / 3) % 2 == 0
    case 5 => (r * c) % 2 + (r * c) % 3 == 0
    case 6 => ((r * c) % 2 + (r * c) % 3) % 2 == 0
    case 7 => ((r + c) % 2 + (r * c) % 3) % 2 == 0
    case _ => false
  }

  // ---- Function modules --------------------------------------------------

  /** A finder pattern with its separator, relative to the pattern's corner. */
  function FinderValue(dr: int, dc: int): Option<bool> {
    if -1 <= dr <= 7 && -1 <= dc <= 7 then
      Some(0 <= dr <= 6 && 0 <= dc <= 6 &&
           (dr == 0 || dr == 6 || dc == 0 || dc == 6 || (2 <= dr <= 4 && 2 <= dc <= 4)))
    else None
  }

  /** An alignment pattern: dark, light, dark rings around its centre. */
  function Ring(dr: int, dc: int): bool {
    Max(Abs(dr), Abs(dc)) != 1
  }

  /** The offset of x from the alignment centre it is near. */
  function AxisOffset(pos: seq<nat>, x: int): int {
    if pos == [] then 0
    else if Near(pos[0], x) then x - pos[0]
    else AxisOffset(pos[1..], x)
  }

  function AlignmentValue(v: Version, r: int, c: int): bool {
    Ring(AxisOffset(Align(v), r), AxisOffset(Align(v), c))
  }

  /** The module buildBase leaves at a function position: None where data goes. */
  function BaseValue(v: Version, r: int, c: int): Option<bool> {
    var s := Size(v);
    if r <= 7 && c <= 7 then FinderValue(r, c)
    else if r <= 7 && c >= s - 8 then FinderValue(r, c - (s - 7))
    else if r >= s - 8 && c <= 7 then FinderValue(r - (s - 7), c)
    else if InAlignment(v, r, c) then Some(AlignmentValue(v, r, c))
    else if r == 6 then Some(c % 2 == 0)
    else if c == 6 then Some(r % 2 == 0)
    else if r == s - 8 && c == 8 then Some(true)
    else if IsFunction(v, r, c) then Some(false)
    else None
  }

  /** Which format bit (0 = least significant) a module carries. */
  function FormatBit(size: nat, r: int, c: int): Option<nat> {
    if c == 8 && 0 <= r <= 5 then Some(r)
    else if c == 8 && 7 <= r <= 8 then Some(r - 1)
    else if c == 8 && size >= 15 && size - 7 <= r < size then Some(r - (size - 15))
    else if r == 8 && size - 8 <= c < size then Some(size - 1 - c)
    else if r == 8 && c == 7 then Some(8)
    else if r == 8 && 0 <= c <= 5 then Some(14 - c)
    else None
  }

  /** Which version bit a module carries. */
  function VersionBit(v: Version, r: int, c: int): Option<nat> {
    var s := Size(v);
    if v < 7 then None
    else if 0 <= r < 6 && s - 11 <= c < s - 8 then Some(3 * r + c - (s - 11))
    else if 0 <= c < 6 && s - 11 <= r < s - 8 then Some(3 * c + r - (s - 11))
    else None
  }

  /** Bit i of a word written most significant first. */
  function WordBit(w: seq<bool>, i: nat): bool {
    if i < |w| then w[|w| - 1 - i] else false
  }

  // ---- The finished symbol -----------------------------------------------

  function DataBit(bits: seq<bool>, k: nat): bool {
    if k < |bits| then bits[k] else false
  }

  ghost function IndexOf<T(!new)>(s: seq<T>, x: T): (k: nat)
    requires x in s
    ensures k < |s| && s[k] == x
  {
    var k :| 0 <= k < |s| && s[k] == x;
    k
  }

  ghost function ModuleAt(v: Version, bits: seq<bool>, mask: nat, r: nat, c: nat): bool {
    var f, u := FormatBit(Size(v), r, c), VersionBit(v, r, c);
    if u.Some? then WordBit(Bch.VersionWord(v), u.value)
    else if f.Some? then WordBit(Bch.FormatWord(mask), f.value)
    else if BaseValue(v, r, c).Some? then BaseValue(v, r, c).value
    else if Pos(r, c) in FreeCells(v) then DataBit(bits, IndexOf(FreeCells(v), Pos(r, c))) != MaskFn(mask, r, c)
    else false
  }

  ghost function Symbol(v: Version, bits: seq<bool>, mask: nat): (g: Grid)
    ensures |g| == Size(v) && forall r :: 0 <= r < Size(v) ==> |g[r]| == Size(v)
  {
    seq(Size(v), r requires 0 <= r < Size(v) => seq(Size(v), c requires 0 <= c < Size(v) => ModuleAt(v, bits, mask, r, c)))
  }

  // ---- Reading a symbol --------------------------------------------------

  /** Where the k-th most significant format bit stands, beside the top left finder. */
  function FormatPlace(k: nat): Pos {
    if k < 6 then Pos(8, k)
    else if k == 6 then Pos(8, 7)
    else if k == 7 then Pos(8, 8)
    else if k == 8 then Pos(7, 8)
    else Pos(14 - k, 8)
  }

  function ReadFormat(g: Grid): (w: seq<bool>)
    requires |g| > 8 && forall r :: 0 <= r < |g| ==> |g[r]| == |g|
    ensures |w| == 15
  {
    seq(15, k requires 0 <= k < 15 => g[FormatPlace(k).r][FormatPlace(k).c])
  }

  function ReadCells(g: Grid, cells: seq<Pos>, mask: nat): (bits: seq<bool>)
    requires forall p :: p in cells ==> 0 <= p.r < |g| && 0 <= p.c < |g[p.r]|
    ensures |bits| == |cells|
  {
    seq(|cells|, k requires 0 <= k < |cells| =>
      assert cells[k] in cells;
      g[cells[k].r][cells[k].c] != MaskFn(mask, cells[k].r, cells[k].c))
  }

  predicate Square(g: Grid, n: nat) {
    |g| == n && forall r :: 0 <= r < n ==> |g[r]| == n
  }

  /** Data modules are read in zigzag order, unmasked and packed. */
  function FinalBytes(g: Grid, v: Version, mask: nat): (final: seq<bv8>)
    requires Square(g, Size(v))
  {
    FreeCellsExact(v);
    Pack(ReadCells(g, FreeCells(v), mask)[..8 * TotalBytes(v)])
  }

  /** Then they are de-interleaved and parsed. */
  function DecodeData(g: Grid, v: Version, mask: nat): Option<seq<bv8>>
    requires Square(g, Size(v))
  {
    Parse(FinalSequence.ReadData(FinalBytes(g, v, mask), v), v)
  }

  /** A scanner that knows only the grid: its size gives the version, the format bits the mask. */
  function Decode(g: Grid): Option<seq<bv8>> {
    if !(21 <= |g| <= 97 && |g| % 4 == 1 && Square(g, |g|)) then None
    else
      var v: Version := (|g| - 17) / 4;
      var mask := Bch.MaskOf(ReadFormat(g));
      if mask < 0 then None else DecodeData(g, v, mask)
  }

  // ---- Reading undoes drawing --------------------------------------------

  /** Everything that is not data sits on function modules, and only there. */
  lemma FunctionModules(v: Version, r: int, c: int)
    requires 0 <= r < Size(v) && 0 <= c < Size(v)
    ensures FormatBit(Size(v), r, c).Some? ==> IsFunction(v, r, c)
    ensures VersionBit(v, r, c).Some? ==> IsFunction(v, r, c)
    ensures BaseValue(v, r, c).Some? <==> IsFunction(v, r, c)
  {
    hide InAlignment;
  }

  lemma IndexOfIs<T(!new)>(s: seq<T>, x: T, k: nat)
    requires NoDuplicates(s) && k < |s| && s[k] == x
    ensures IndexOf(s, x) == k
  {
    assert s[IndexOf(s, x)] == s[k];
  }

  lemma DataModule(v: Version, bits: seq<bool>, mask: nat, k: nat)
    requires k < |FreeCells(v)|
    ensures var p := FreeCells(v)[k];
      0 <= p.r < Size(v) && 0 <= p.c < Size(v) &&
      Symbol(v, bits, mask)[p.r][p.c] == (DataBit(bits, k) != MaskFn(mask, p.r, p.c))
  {
    hide FreeCells, IsFunction, MaskFn, FormatBit, VersionBit, BaseValue, IndexOf;
    FreeCellsExact(v);
    var p := FreeCells(v)[k];
    assert p in FreeCells(v) && p == Pos(p.r, p.c);
    FunctionModules(v, p.r, p.c);
    IndexOfIs(FreeCells(v), p, k);
  }

  lemma FormatModule(v: Version, bits: seq<bool>, mask: nat, k: nat)
    requires k < 15
    ensures var p := FormatPlace(k); Symbol(v, bits, mask)[p.r][p.c] == Bch.FormatWord(mask)[k]
  {
    hide BaseValue, FreeCells, MaskFn, Bch.FormatWord, Bch.VersionWord;
    var p := FormatPlace(k);
    assert FormatBit(Size(v), p.r, p.c) == Some(14 - k);
    assert VersionBit(v, p.r, p.c) == None;
  }

  lemma FormatReadBack(v: Version, bits: seq<bool>, mask: nat)
    ensures ReadFormat(Symbol(v, bits, mask)) == Bch.FormatWord(mask)
  {
    hide Symbol, FormatPlace, Bch.FormatWord;
    var w := Bch.FormatWord(mask);
    forall k | 0 <= k < 15 ensures ReadFormat(Symbol(v, bits, mask))[k] == w[k] {
      FormatModule(v, bits, mask, k);
    }
  }

  lemma DataReadBack(v: Version, bits: seq<bool>, mask: nat)
    requires |bits| == 8 * TotalBytes(v)
    ensures |FreeCells(v)| >= |bits|
    ensures forall p :: p in FreeCells(v) ==> 0 <= p.r < Size(v) && 0 <= p.c < Size(v)
    ensures ReadCells(Symbol(v, bits, mask), FreeCells(v), mask)[..|bits|] == bits
  {
    hide FreeCells, TotalBytes, Symbol, MaskFn;
    FreeCellsExact(v);
    forall k | 0 <= k < |bits|
      ensures ReadCells(Symbol(v, bits, mask), FreeCells(v), mask)[k] == bits[k]
    {
      DataModule(v, bits, mask, k);
    }
  }

  lemma HeaderReadBack(v: Version, bits: seq<bool>, mask: nat)
    requires mask < 8
    ensures Decode(Symbol(v, bits, mask)) == DecodeData(Symbol(v, bits, mask), v, mask)
  {
    hide Bch.FormatWord, Bch.MaskOf, DecodeData, ReadFormat, Symbol;
    FormatReadBack(v, bits, mask);
    Bch.MaskOfFormatWord(mask);
  }

  /** The final sequence is read back from the grid. */
  lemma FinalReadBack(v: Version, codewords: seq<bv8>, mask: nat)
    requires |codewords| == TotalData(v)
    ensures FinalBytes(Symbol(v, Stream(FinalSequence.Final(codewords, v)), mask), v, mask) == FinalSequence.Final(codewords, v)
  {
    hide FreeCells, ReadCells, Stream, Pack, TotalData, TotalBytes, Symbol, FinalSequence.Final;
    var final := FinalSequence.Final(codewords, v);
    FinalSequence.FinalLength(codewords, v);
    DataReadBack(v, Stream(final), mask);
    PackStream(final);
  }

  /** Section 7 in one statement: a scanner reads back exactly the bytes that were encoded,
      whichever mask was chosen. */
  lemma DecodeSymbol(bytes: seq<bv8>, v: Version, codewords: seq<bv8>, mask: nat)
    requires Fits(|bytes|, v) && |codewords| == TotalData(v)
    requires Stream(codewords) == EncodedStream(bytes, v)
    requires mask < 8
    ensures Decode(Symbol(v, Stream(FinalSequence.Final(codewords, v)), mask)) == Some(bytes)
  {
    hide Decode, FinalBytes, Stream, Parse, TotalData, Symbol, EncodedStream, FinalSequence.Final, FinalSequence.ReadData, Fits;
    HeaderReadBack(v, Stream(FinalSequence.Final(codewords, v)), mask);
    FinalReadBack(v, codewords, mask);
    FinalSequence.ReadFinal(codewords, v);
    ParseEncoded(bytes, v, codewords);
  }
}
