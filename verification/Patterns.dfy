/** What a scanner looks for in a finished symbol before it reads any data (sections 6.3 and 7.8 of ISO/IEC
    18004:2015): finder, alignment and timing patterns by their distances, whatever was encoded. */
module Patterns {
  import opened Wrappers
  import opened Numbers
  import opened Versions
  import opened Layout
  import opened Counting
  import opened Zigzag
  import opened Symbols
  import Drawing
  import Bch

  /** How far two modules are apart, counted in rings around one of them. */
  function Rings(p: Pos, q: Pos): (d: nat) {
    Max(Abs(p.r - q.r), Abs(p.c - q.c))
  }

  predicate On(g: Grid, p: Pos) {
    0 <= p.r < |g| && 0 <= p.c < |g[p.r]|
  }

  predicate Dark(g: Grid, p: Pos)
    requires On(g, p)
  {
    g[p.r][p.c]
  }

  /** Dark 3 by 3, a light ring, a dark ring, and a light separator: any line through the centre shows 1:1:3:1:1. */
  ghost predicate FinderAround(g: Grid, centre: Pos) {
    forall p: Pos :: On(g, p) && Rings(p, centre) <= 4 ==> (Dark(g, p) <==> Rings(p, centre) in {0, 1, 3})
  }

  /** A dark module, a light ring and a dark ring. */
  ghost predicate AlignmentAround(g: Grid, centre: Pos) {
    forall p: Pos :: On(g, p) && Rings(p, centre) <= 2 ==> (Dark(g, p) <==> Rings(p, centre) in {0, 2})
  }

  /** Between the finders row 6 and column 6 alternate, beginning dark. */
  predicate Timing(g: Grid, n: nat)
    requires Square(g, n)
  {
    forall i :: 8 <= i < n - 8 && n > 6 ==> (g[6][i] <==> i % 2 == 0) && (g[i][6] <==> i % 2 == 0)
  }

  /** All pairs of centres but the three where a finder is. */
  predicate AlignmentCentre(v: Version, centre: Pos) {
    var pos, last := Align(v), Size(v) - 7;
    centre.r in pos && centre.c in pos && centre !in {Pos(6, 6), Pos(6, last), Pos(last, 6)}
  }

  ghost predicate Recognisable(g: Grid, v: Version) {
    var n := Size(v);
    Square(g, n) &&
    FinderAround(g, Pos(3, 3)) && FinderAround(g, Pos(3, n - 4)) && FinderAround(g, Pos(n - 4, 3)) &&
    (forall centre: Pos :: AlignmentCentre(v, centre) ==> AlignmentAround(g, centre)) &&
    Timing(g, n) && g[n - 8][8]
  }

  /** A module that no format or version bit overwrites is as the base has it. */
  lemma BaseStays(v: Version, bits: seq<bool>, mask: nat, r: nat, c: nat)
    requires r < Size(v) && c < Size(v) && FormatBit(Size(v), r, c).None? && VersionBit(v, r, c).None?
    requires BaseValue(v, r, c).Some?
    ensures Symbol(v, bits, mask)[r][c] == BaseValue(v, r, c).value
  {
    hide BaseValue, FormatBit, VersionBit, FreeCells;
  }

  lemma FinderModule(v: Version, bits: seq<bool>, mask: nat, centre: Pos, p: Pos)
    requires centre in {Pos(3, 3), Pos(3, Size(v) - 4), Pos(Size(v) - 4, 3)}
    requires 0 <= p.r < Size(v) && 0 <= p.c < Size(v) && Rings(p, centre) <= 4
    ensures Symbol(v, bits, mask)[p.r][p.c] <==> Rings(p, centre) in {0, 1, 3}
  {
    assert FormatBit(Size(v), p.r, p.c).None? && VersionBit(v, p.r, p.c).None?;
    assert BaseValue(v, p.r, p.c).Some? && (BaseValue(v, p.r, p.c).value <==> Rings(p, centre) in {0, 1, 3});
    hide Rings, BaseValue, FormatBit, VersionBit, Symbol;
    BaseStays(v, bits, mask, p.r, p.c);
  }

  /** The offsets from a centre. */
  lemma AlignmentModule(v: Version, bits: seq<bool>, mask: nat, centre: Pos, p: Pos)
    requires AlignmentCentre(v, centre)
    requires 0 <= p.r < Size(v) && 0 <= p.c < Size(v) && Rings(p, centre) <= 2
    ensures Symbol(v, bits, mask)[p.r][p.c] <==> Rings(p, centre) in {0, 2}
  {
    AlignShape(v);
    var i :| 0 <= i < |Align(v)| && Align(v)[i] == centre.r;
    var j :| 0 <= j < |Align(v)| && Align(v)[j] == centre.c;
    NotOnFinder(v, i, j);
    Drawing.StampIsAlignment(v, i, j, p.r, p.c);
    assert InPattern(v, i, j, p.r, p.c);
    AlignmentIsBase(v, p.r, p.c);
    assert Ring(p.r - centre.r, p.c - centre.c) <==> Rings(p, centre) in {0, 2};
    hide *;
    BaseStays(v, bits, mask, p.r, p.c);
  }

  lemma NotOnFinder(v: Version, i: nat, j: nat)
    requires i < |Align(v)| && j < |Align(v)| && AlignmentCentre(v, Pos(Align(v)[i], Align(v)[j]))
    ensures !OnFinder(Size(v), Align(v)[i], Align(v)[j])
  {}

  lemma AlignmentIsBase(v: Version, r: int, c: int)
    requires 0 <= r < Size(v) && 0 <= c < Size(v) && InAlignment(v, r, c)
    ensures FormatBit(Size(v), r, c).None? && VersionBit(v, r, c).None?
    ensures BaseValue(v, r, c) == Some(AlignmentValue(v, r, c))
  {
    hide InAlignment, Hit, AlignmentValue, Align;
    AlignmentByAxis(v, r, c);
    HitRegions(v, r);
    HitRegions(v, c);
  }

  /** Where an alignment pattern lies across the timing pattern, it agrees with it. */
  lemma AcrossTiming(v: Version, r: int, c: int)
    requires InAlignment(v, r, c) && (r == 6 || c == 6)
    ensures AlignmentValue(v, r, c) <==> (r + c) % 2 == 0
  {
    hide Align, AlignmentValue;
    var i, j :| 0 <= i < |Align(v)| && 0 <= j < |Align(v)| && InPattern(v, i, j, r, c);
    Drawing.StampIsAlignment(v, i, j, r, c);
    CentreOnSix(v, i, r);
    CentreOnSix(v, j, c);
  }

  lemma CentreOnSix(v: Version, i: nat, x: int)
    requires i < |Align(v)| && Near(Align(v)[i], x)
    ensures x == 6 ==> Align(v)[i] == 6
    ensures Align(v)[i] % 2 == 0
  {}

  lemma TimingModule(v: Version, bits: seq<bool>, mask: nat, r: int, c: int)
    requires (r == 6 && 8 <= c < Size(v) - 8) || (c == 6 && 8 <= r < Size(v) - 8)
    ensures Symbol(v, bits, mask)[r][c] <==> (r + c) % 2 == 0
  {
    if InAlignment(v, r, c) { AcrossTiming(v, r, c); }
    TimingIsBase(v, r, c);
    hide *;
    BaseStays(v, bits, mask, r, c);
  }

  lemma TimingIsBase(v: Version, r: int, c: int)
    requires (r == 6 && 8 <= c < Size(v) - 8) || (c == 6 && 8 <= r < Size(v) - 8)
    ensures FormatBit(Size(v), r, c).None? && VersionBit(v, r, c).None?
    ensures BaseValue(v, r, c) == Some(if InAlignment(v, r, c) then AlignmentValue(v, r, c) else (r + c) % 2 == 0)
  {
    hide InAlignment, AlignmentValue;
  }

  lemma DarkModule(v: Version, bits: seq<bool>, mask: nat)
    ensures Symbol(v, bits, mask)[Size(v) - 8][8]
  {
    assert BaseValue(v, Size(v) - 8, 8) == Some(true) by {
      AlignmentByAxis(v, Size(v) - 8, 8);
    }
    assert FormatBit(Size(v), Size(v) - 8, 8).None? && VersionBit(v, Size(v) - 8, 8).None?;
    hide *;
    BaseStays(v, bits, mask, Size(v) - 8, 8);
  }

  /** Whatever is encoded, under every mask, the finished symbol shows the patterns a scanner looks for. */
  lemma SymbolRecognisable(v: Version, bits: seq<bool>, mask: nat)
    ensures Recognisable(Symbol(v, bits, mask), v)
  {
    hide Symbol, Rings, Align;
    var g := Symbol(v, bits, mask);
    forall centre: Pos, p: Pos |
        centre in {Pos(3, 3), Pos(3, Size(v) - 4), Pos(Size(v) - 4, 3)} && On(g, p) && Rings(p, centre) <= 4
      ensures Dark(g, p) <==> Rings(p, centre) in {0, 1, 3}
    {
      FinderModule(v, bits, mask, centre, p);
    }
    forall centre: Pos, p: Pos | AlignmentCentre(v, centre) && On(g, p) && Rings(p, centre) <= 2
      ensures Dark(g, p) <==> Rings(p, centre) in {0, 2}
    {
      AlignmentModule(v, bits, mask, centre, p);
    }
    forall i | 8 <= i < Size(v) - 8 ensures (g[6][i] <==> i % 2 == 0) && (g[i][6] <==> i % 2 == 0) {
      TimingModule(v, bits, mask, 6, i);
      TimingModule(v, bits, mask, i, 6);
    }
    DarkModule(v, bits, mask);
  }

  // ---- Where the alignment patterns are --------------------------------------

  /** Annex E in closed form: version / 7 + 2 centres on each axis from version 2 on, the first in line with the
      timing pattern, the last seven modules from the edge, the others at equal even steps before it. */
  lemma AlignmentSteps(v: Version, i: nat)
    requires v > 1
    ensures var pos, n := Align(v), v / 7 + 2;
      |pos| == n && pos[0] == 6 &&
      var step := 2 * ((Size(v) - 13 + 2 * (n - 1) - 1) / (2 * (n - 1)));
      (0 < i < n ==> pos[i] == Size(v) - 7 - (n - 1 - i) * step)
  {}

  // ---- Where information goes ------------------------------------------------

  /** Format bit i stands at two places, one in column 8 and one in row 8. */
  lemma FormatPlaces(size: nat, i: nat, r: int, c: int)
    requires size >= 21 && i < 15
    ensures FormatBit(size, r, c) == Some(i) <==>
      (c == 8 && r == if i < 6 then i else if i < 8 then i + 1 else size - 15 + i) ||
      (r == 8 && c == if i < 8 then size - 1 - i else if i == 8 then 7 else 14 - i)
  {}

  /** Format and version words only overwrite modules that buildBase reserved for them: never
      data, a finder, an alignment pattern, timing or the dark module. */
  lemma InformationIsReserved(v: Version, r: int, c: int)
    requires 0 <= r < Size(v) && 0 <= c < Size(v)
    requires FormatBit(Size(v), r, c).Some? || VersionBit(v, r, c).Some?
    ensures IsFunction(v, r, c) && BaseValue(v, r, c) == Some(false)
    ensures Pos(r, c) !in FreeCells(v)
    ensures !InAlignment(v, r, c) && r != 6 && c != 6 && !(r == 4 * v + 9 && c == 8)
    ensures !(FormatBit(Size(v), r, c).Some? && VersionBit(v, r, c).Some?)
    ensures !(r <= 7 && c <= 7) && !(r <= 7 && c >= Size(v) - 8) && !(r >= Size(v) - 8 && c <= 7)
  {
    hide FreeCells, InAlignment, Hit;
    FreeCellsExact(v);
    AlignmentByAxis(v, r, c);
    HitRegions(v, r);
    HitRegions(v, c);
  }

  /** Bit i of both copies, in column 8 and in row 8, is the bit of the word the standard tabulates. */
  lemma FormatShown(v: Version, bits: seq<bool>, mask: nat, i: nat)
    requires mask < 8 && i < 15
    ensures var n, g, bit := Size(v), Symbol(v, bits, mask), Bch.FORMAT_WORDS[mask][14 - i] == '1';
      g[if i < 6 then i else if i < 8 then i + 1 else n - 15 + i][8] == bit &&
      g[8][if i < 8 then n - 1 - i else if i == 8 then 7 else 14 - i] == bit
  {
    hide BaseValue, FreeCells, MaskFn, Bch.FormatWord, Bch.VersionWord, Bch.FORMAT_WORDS;
    Bch.FormatWordIs(mask);
    var n := Size(v);
    var r, c := if i < 6 then i else if i < 8 then i + 1 else n - 15 + i, if i < 8 then n - 1 - i else if i == 8 then 7 else 14 - i;
    FormatPlaces(n, i, r, 8);
    FormatPlaces(n, i, 8, c);
    assert VersionBit(v, r, 8).None? && VersionBit(v, 8, c).None?;
  }

  /** From version 7 on both copies of every version bit. */
  lemma VersionShown(v: Version, bits: seq<bool>, mask: nat, i: nat)
    requires v >= 7 && i < 18
    ensures var n, g := Size(v), Symbol(v, bits, mask);
      g[i / 3][n - 11 + i % 3] == g[n - 11 + i % 3][i / 3] == Bch.VersionWord(v)[17 - i]
  {
    hide BaseValue, FreeCells, MaskFn, Bch.FormatWord, Bch.VersionWord;
    var n := Size(v);
    assert VersionBit(v, i / 3, n - 11 + i % 3) == Some(i) && VersionBit(v, n - 11 + i % 3, i / 3) == Some(i);
  }
}
