/** The order in which data modules are visited (section 7.7.3 of ISO/IEC 18004:2015):
    two columns at a time from the right, alternately upwards and downwards, without column 6. */
module Zigzag {
  import opened Versions
  import opened Layout
  import opened Counting

  datatype Pos = Pos(r: int, c: int)

  function RowAt(size: nat, up: bool, i: int): int {
    if up then size - 1 - i else i
  }

  /** Columns col and col-1 from step i on. */
  function PairCells(size: nat, col: int, up: bool, i: int): seq<Pos>
    decreases size - i
  {
    if i >= size then []
    else
      var row := RowAt(size, up, i);
      [Pos(row, col), Pos(row, col - 1)] + PairCells(size, col, up, i + 1)
  }

  function SkipTiming(col: int): int {
    if col == 6 then 5 else col
  }

  function Walk(size: nat, col: int, up: bool): seq<Pos>
    decreases col
  {
    if col <= 0 then []
    else PairCells(size, SkipTiming(col), up, 0) + Walk(size, SkipTiming(col) - 2, !up)
  }

  ghost predicate NoDuplicates<T>(s: seq<T>) {
    forall i, j :: 0 <= i < j < |s| ==> s[i] != s[j]
  }

  /** Columns right of the timing column start at an even one, those left of it at an odd one. */
  predicate GoodColumn(col: int) {
    if col >= 6 then col % 2 == 0 else col % 2 == 1
  }

  lemma {:induction false} PairMembers(size: nat, col: int, up: bool, i: int, p: Pos)
    requires 0 <= i
    ensures p in PairCells(size, col, up, i) <==>
      (p.c == col || p.c == col - 1) && exists k :: i <= k < size && p.r == RowAt(size, up, k)
    decreases size - i
  {
    if i < size {
      PairMembers(size, col, up, i + 1, p);
      var row := RowAt(size, up, i);
      var rest := PairCells(size, col, up, i + 1);
      assert p in PairCells(size, col, up, i) <==> p == Pos(row, col) || p == Pos(row, col - 1) || p in rest;
    }
  }

  /** One pass over a pair of columns meets each of its cells. */
  lemma PairCovers(size: nat, col: int, up: bool, p: Pos)
    ensures p in PairCells(size, col, up, 0) <==> (p.c == col || p.c == col - 1) && 0 <= p.r < size
  {
    PairMembers(size, col, up, 0, p);
    if 0 <= p.r < size {
      var k := RowAt(size, up, p.r);
      assert p.r == RowAt(size, up, k);
    }
  }

  lemma RowNotAgain(size: nat, col: int, up: bool, i: int, p: Pos)
    requires 0 <= i < size && p.r == RowAt(size, up, i)
    ensures p !in PairCells(size, col, up, i + 1)
  {
    hide PairCells;
    PairMembers(size, col, up, i + 1, p);
  }

  lemma {:induction false} PairDistinct(size: nat, col: int, up: bool, i: int)
    requires 0 <= i
    ensures NoDuplicates(PairCells(size, col, up, i))
    decreases size - i
  {
    if i < size {
      PairDistinct(size, col, up, i + 1);
      var a, b := Pos(RowAt(size, up, i), col), Pos(RowAt(size, up, i), col - 1);
      var rest := PairCells(size, col, up, i + 1);
      assert PairCells(size, col, up, i) == [a, b] + rest;
      RowNotAgain(size, col, up, i, a);
      RowNotAgain(size, col, up, i, b);
      hide PairCells, RowAt;
      DistinctConcat([a, b], rest);
    }
  }

  lemma DistinctConcat<T>(a: seq<T>, b: seq<T>)
    requires NoDuplicates(a) && NoDuplicates(b)
    requires forall x :: x in a ==> x !in b
    ensures NoDuplicates(a + b)
  {
    forall i, j | 0 <= i < j < |a + b| ensures (a + b)[i] != (a + b)[j] {
      if i < |a| <= j { assert (a + b)[i] in a && (a + b)[j] in b; }
    }
  }

  /** The walk from column col on meets every cell up to that column except the timing column. */
  lemma {:induction false} WalkMembers(size: nat, col: int, up: bool, p: Pos)
    requires GoodColumn(col)
    ensures p in Walk(size, col, up) <==> 0 <= p.r < size && 0 <= p.c <= col && p.c != 6
    decreases col
  {
    if col > 0 {
      var c := SkipTiming(col);
      var pair, rest := PairCells(size, c, up, 0), Walk(size, c - 2, !up);
      assert Walk(size, col, up) == pair + rest;
      hide PairCells, Walk;
      PairCovers(size, c, up, p);
      WalkMembers(size, c - 2, !up, p);
      assert p in pair + rest <==> p in pair || p in rest;
    }
  }

  lemma {:induction false} WalkDistinct(size: nat, col: int, up: bool)
    requires GoodColumn(col)
    ensures NoDuplicates(Walk(size, col, up))
    decreases col
  {
    if col > 0 {
      var c := SkipTiming(col);
      PairDistinct(size, c, up, 0);
      WalkDistinct(size, c - 2, !up);
      var pair := PairCells(size, c, up, 0);
      forall p | p in pair ensures p !in Walk(size, c - 2, !up) {
        PairCovers(size, c, up, p);
        WalkMembers(size, c - 2, !up, p);
      }
      DistinctConcat(pair, Walk(size, c - 2, !up));
    }
  }

  // ---- The free modules, in visiting order -------------------------------

  function FreeOf(v: Version, cells: seq<Pos>): seq<Pos> {
    if cells == [] then []
    else
      var p := cells[|cells| - 1];
      FreeOf(v, cells[..|cells| - 1]) + if IsFunction(v, p.r, p.c) then [] else [p]
  }

  function FreeCells(v: Version): seq<Pos> {
    FreeOf(v, Walk(Size(v), Size(v) - 1, true))
  }

  lemma {:induction false} FreeOfConcat(v: Version, a: seq<Pos>, b: seq<Pos>)
    ensures FreeOf(v, a + b) == FreeOf(v, a) + FreeOf(v, b)
  {
    hide IsFunction;
    if b == [] {
      assert a + b == a;
    } else {
      var n := |b| - 1;
      FreeOfConcat(v, a, b[..n]);
      assert (a + b)[..|a + b| - 1] == a + b[..n];
    }
  }

  lemma {:induction false} FreeOfMembers(v: Version, cells: seq<Pos>, p: Pos)
    ensures p in FreeOf(v, cells) <==> p in cells && !IsFunction(v, p.r, p.c)
  {
    hide IsFunction;
    if cells != [] {
      var init, q := cells[..|cells| - 1], cells[|cells| - 1];
      FreeOfMembers(v, init, p);
      assert cells == init + [q];
    }
  }

  lemma {:induction false} FreeOfDistinct(v: Version, cells: seq<Pos>)
    requires NoDuplicates(cells)
    ensures NoDuplicates(FreeOf(v, cells))
  {
    hide IsFunction;
    if cells != [] {
      var init, q := cells[..|cells| - 1], cells[|cells| - 1];
      FreeOfDistinct(v, init);
      FreeOfMembers(v, init, q);
      DistinctConcat(FreeOf(v, init), [q]);
    }
  }

  lemma {:induction false} PairCount(v: Version, col: int, up: bool, i: int)
    requires 0 <= i <= Size(v)
    ensures |FreeOf(v, PairCells(Size(v), col, up, i))| ==
      if up then FreeRows(v, col, 0, Size(v) - i) + FreeRows(v, col - 1, 0, Size(v) - i)
      else FreeRows(v, col, i, Size(v)) + FreeRows(v, col - 1, i, Size(v))
    decreases Size(v) - i
  {
    hide IsFunction;
    var s := Size(v);
    if i < s {
      var row, rest := RowAt(s, up, i), PairCells(s, col, up, i + 1);
      PairCount(v, col, up, i + 1);
      hide Size;
      TwoCells(v, Pos(row, col), Pos(row, col - 1));
      FreeOfConcat(v, [Pos(row, col), Pos(row, col - 1)], rest);
      if !up {
        FreeRowsSplit(v, col, i, i + 1, s);
        FreeRowsSplit(v, col - 1, i, i + 1, s);
        assert FreeRows(v, col, i, i) == 0 == FreeRows(v, col - 1, i, i);
      }
    }
  }

  lemma TwoCells(v: Version, p: Pos, q: Pos)
    ensures |FreeOf(v, [p, q])| == (if IsFunction(v, p.r, p.c) then 0 else 1) + if IsFunction(v, q.r, q.c) then 0 else 1
  {
    hide IsFunction;
    assert [p, q] == [p] + [q];
    FreeOfConcat(v, [p], [q]);
    FreeOfConcat(v, [], [p]);
    assert FreeOf(v, [p]) == FreeOf(v, []) + if IsFunction(v, p.r, p.c) then [] else [p];
    assert FreeOf(v, [q]) == FreeOf(v, []) + if IsFunction(v, q.r, q.c) then [] else [q];
  }

  lemma {:induction false} WalkCount(v: Version, col: int, up: bool)
    requires GoodColumn(col) && -1 <= col < Size(v)
    ensures |FreeOf(v, Walk(Size(v), col, up))| == FreeColumns(v, col + 1)
    decreases col
  {
    hide IsFunction, FreeRows;
    if col > 0 {
      var c := SkipTiming(col);
      PairCount(v, c, up, 0);
      WalkCount(v, c - 2, !up);
      FreeOfConcat(v, PairCells(Size(v), c, up, 0), Walk(Size(v), c - 2, !up));
      assert FreeColumns(v, c + 1) == FreeColumns(v, c - 1) + FreeRows(v, c - 1, 0, Size(v)) + FreeRows(v, c, 0, Size(v));
    }
  }

  /** The walk visits every module that is not a function module, each exactly once, and there
      are eight for every byte of the final sequence plus the remainder bits. */
  lemma FreeCellsExact(v: Version)
    ensures forall p: Pos :: p in FreeCells(v) <==>
      0 <= p.r < Size(v) && 0 <= p.c < Size(v) && !IsFunction(v, p.r, p.c)
    ensures NoDuplicates(FreeCells(v))
    ensures |FreeCells(v)| == 8 * TotalBytes(v) + RemainderBits(v)
  {
    hide FreeOf, Walk, TotalBytes, FreeColumns;
    var walk := Walk(Size(v), Size(v) - 1, true);
    forall p: Pos ensures p in FreeCells(v) <==>
      0 <= p.r < Size(v) && 0 <= p.c < Size(v) && !IsFunction(v, p.r, p.c)
    {
      FreeOfMembers(v, walk, p);
      WalkMembers(Size(v), Size(v) - 1, true, p);
    }
    WalkDistinct(Size(v), Size(v) - 1, true);
    FreeOfDistinct(v, walk);
    WalkCount(v, Size(v) - 1, true);
    FreeModules(v);
  }
}
