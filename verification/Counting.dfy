/** How many modules a symbol leaves free for data, for every version. */
module Counting {
  import opened Versions
  import opened Layout

  /** Free modules of column c in rows lo .. hi-1. */
  function FreeRows(v: Version, c: int, lo: int, hi: int): (n: nat)
    requires lo <= hi
    decreases hi - lo
  {
    if lo == hi then 0 else FreeRows(v, c, lo, hi - 1) + if IsFunction(v, hi - 1, c) then 0 else 1
  }

  lemma {:induction false} FreeRowsSplit(v: Version, c: int, lo: int, mid: int, hi: int)
    requires lo <= mid <= hi
    ensures FreeRows(v, c, lo, hi) == FreeRows(v, c, lo, mid) + FreeRows(v, c, mid, hi)
    decreases hi - mid
  {
    hide IsFunction;
    if mid < hi { FreeRowsSplit(v, c, lo, mid, hi - 1); }
  }

  lemma {:induction false} FreeRowsAll(v: Version, c: int, lo: int, hi: int)
    requires lo <= hi
    requires forall r :: lo <= r < hi ==> !IsFunction(v, r, c)
    ensures FreeRows(v, c, lo, hi) == hi - lo
    decreases hi - lo
  {
    hide IsFunction;
    if lo < hi { FreeRowsAll(v, c, lo, hi - 1); }
  }

  lemma {:induction false} FreeRowsNone(v: Version, c: int, lo: int, hi: int)
    requires lo <= hi
    requires forall r :: lo <= r < hi ==> IsFunction(v, r, c)
    ensures FreeRows(v, c, lo, hi) == 0
    decreases hi - lo
  {
    hide IsFunction;
    if lo < hi { FreeRowsNone(v, c, lo, hi - 1); }
  }

  /** Alignment centres strictly between the first and the last. */
  function Inner(v: Version): (m: nat)
    ensures m <= 2
  {
    AlignShape(v);
    if v == 1 then 0 else |Align(v)| - 2
  }

  /** Membership in an alignment pattern, coordinate by coordinate. */
  lemma AlignmentByAxis(v: Version, r: int, c: int)
    ensures InAlignment(v, r, c) <==>
      Hit(v, r) && Hit(v, c) && !(r <= 8 && c <= 8) && !(r <= 8 && c >= Size(v) - 9) && !(r >= Size(v) - 9 && c <= 8)
  {
    AlignShape(v);
    var pos, n := Align(v), |Align(v)|;
    if Hit(v, r) && Hit(v, c) {
      var i :| 0 <= i < n && Near(pos[i], r);
      var j :| 0 <= j < n && Near(pos[j], c);
      assert InPattern(v, i, j, r, c) <==> !OnFinder(Size(v), pos[i], pos[j]);
    }
    if InAlignment(v, r, c) {
      var i, j :| 0 <= i < n && 0 <= j < n && InPattern(v, i, j, r, c);
      assert Near(pos[i], r) && Near(pos[j], c);
    }
  }

  /** Where the axis is covered: around the first, the inner and the last centres. */
  lemma HitRegions(v: Version, x: int)
    ensures x < 4 ==> !Hit(v, x)
    ensures 4 <= x <= 8 ==> (Hit(v, x) <==> v > 1)
    ensures 9 <= x < Size(v) - 11 ==> (Hit(v, x) <==> exists i :: 1 <= i <= Inner(v) && Near(Align(v)[i], x))
    ensures Size(v) - 11 <= x < Size(v) - 9 && x >= 9 ==> !Hit(v, x)
    ensures Size(v) - 9 <= x <= Size(v) - 5 ==> (Hit(v, x) <==> v > 1)
    ensures Size(v) - 4 <= x ==> !Hit(v, x)
  {
    AlignShape(v);
    var pos, n := Align(v), |Align(v)|;
    if v > 1 {
      assert Near(pos[0], x) <==> 4 <= x <= 8;
      assert Near(pos[n - 1], x) <==> Size(v) - 9 <= x <= Size(v) - 5;
    }
  }

  // ---- One column --------------------------------------------------------

  /** Whether alignment patterns reach into column c below the top nine rows. */
  predicate Aligned(v: Version, c: int) {
    Hit(v, c) && c != 6
  }

  function InnerFree(v: Version, c: int): int {
    if Aligned(v, c) then Size(v) - 20 - 5 * Inner(v) else Size(v) - 20
  }

  predicate InnerHit(v: Version, r: int) {
    exists i :: 1 <= i <= Inner(v) && Near(Align(v)[i], r)
  }

  lemma MiddleRule(v: Version, r: int, c: int)
    requires 0 <= c < Size(v) && c != 6 && 9 <= r < Size(v) - 11
    ensures IsFunction(v, r, c) <==> Hit(v, c) && InnerHit(v, r)
  {
    hide Align, Hit, InAlignment;
    AlignmentByAxis(v, r, c);
    HitRegions(v, r);
    HitRegions(v, c);
  }

  lemma InnerHits(v: Version, x: int)
    ensures InnerHit(v, x) <==>
      (Inner(v) >= 1 && Near(Align(v)[1], x)) || (Inner(v) == 2 && Near(Align(v)[2], x))
  {
    hide Align;
    AlignShape(v);
    if Inner(v) >= 1 && Near(Align(v)[1], x) { assert InnerHit(v, x); }
    if Inner(v) == 2 && Near(Align(v)[2], x) { assert InnerHit(v, x); }
  }

  /** Rows 9 .. size-12: only alignment patterns. */
  lemma MiddleRows(v: Version, c: int)
    requires 0 <= c < Size(v) && c != 6
    ensures FreeRows(v, c, 9, Size(v) - 11) == InnerFree(v, c)
  {
    hide Align, IsFunction, Hit, InnerHit, FreeRows;
    var (s, pos, m) := (Size(v), Align(v), Inner(v));
    AlignShape(v);
    forall r | 9 <= r < s - 11 ensures IsFunction(v, r, c) <==>
      Hit(v, c) && ((m >= 1 && Near(pos[1], r)) || (m == 2 && Near(pos[2], r)))
    {
      MiddleRule(v, r, c);
      InnerHits(v, r);
    }
    if !Hit(v, c) || m == 0 {
      FreeRowsAll(v, c, 9, s - 11);
    } else {
      var p := pos[1];
      FreeRowsSplit(v, c, 9, p - 2, s - 11);
      FreeRowsSplit(v, c, p - 2, p + 3, s - 11);
      FreeRowsAll(v, c, 9, p - 2);
      FreeRowsNone(v, c, p - 2, p + 3);
      if m == 1 {
        FreeRowsAll(v, c, p + 3, s - 11);
      } else {
        var q := pos[2];
        FreeRowsSplit(v, c, p + 3, q - 2, s - 11);
        FreeRowsSplit(v, c, q - 2, q + 3, s - 11);
        FreeRowsAll(v, c, p + 3, q - 2);
        FreeRowsNone(v, c, q - 2, q + 3);
        FreeRowsAll(v, c, q + 3, s - 11);
      }
    }
  }

  /** Rows 0 .. 8. */
  function TopFree(v: Version, c: int): int {
    var s := Size(v);
    if c <= 8 || c >= s - 8 then 0
    else if c >= s - 11 && v >= 7 then 2
    else if Hit(v, c) && c < s - 11 then 4
    else 8
  }

  lemma TopRows(v: Version, c: int)
    requires 0 <= c < Size(v) && c != 6
    ensures FreeRows(v, c, 0, 9) == TopFree(v, c)
  {
    var s := Size(v);
    AlignShape(v);
    forall r | 0 <= r < 9 ensures IsFunction(v, r, c) <==>
      c <= 8 || c >= s - 8 || r == 6 || (c >= s - 11 && v >= 7 && r < 6) || (r >= 4 && Hit(v, c) && c < s - 11)
    {
      AlignmentByAxis(v, r, c);
      HitRegions(v, r);
      HitRegions(v, c);
    }
    HitRegions(v, c);
    hide IsFunction, Hit;
    FreeRowsSplit(v, c, 0, 4, 9);
    FreeRowsSplit(v, c, 4, 6, 9);
    FreeRowsSplit(v, c, 6, 7, 9);
    if TopFree(v, c) == 0 {
      FreeRowsNone(v, c, 0, 4); FreeRowsNone(v, c, 4, 6); FreeRowsNone(v, c, 6, 7); FreeRowsNone(v, c, 7, 9);
    } else {
      FreeRowsNone(v, c, 6, 7);
      if TopFree(v, c) == 2 {
        FreeRowsNone(v, c, 0, 4); FreeRowsNone(v, c, 4, 6); FreeRowsAll(v, c, 7, 9);
      } else if TopFree(v, c) == 4 {
        FreeRowsAll(v, c, 0, 4); FreeRowsNone(v, c, 4, 6); FreeRowsNone(v, c, 7, 9);
      } else {
        FreeRowsAll(v, c, 0, 4); FreeRowsAll(v, c, 4, 6); FreeRowsAll(v, c, 7, 9);
      }
    }
  }

  /** Rows size-11 .. size-1. */
  function BottomFree(v: Version, c: int): int {
    if c < 6 then (if v >= 7 then 0 else 3)
    else if c <= 8 then 3
    else if Hit(v, c) then 6
    else 11
  }

  lemma BottomRule(v: Version, r: int, c: int)
    requires 0 <= c < Size(v) && c != 6 && Size(v) - 11 <= r < Size(v)
    ensures IsFunction(v, r, c) <==>
      (c <= 8 && r >= Size(v) - 8) || (c < 6 && v >= 7 && r < Size(v) - 8) || (c >= 9 && Hit(v, c) && Size(v) - 9 <= r <= Size(v) - 5)
  {
    hide Align, Hit, InAlignment;
    AlignmentByAxis(v, r, c);
    HitRegions(v, r);
    HitRegions(v, c);
  }

  lemma BottomRows(v: Version, c: int)
    requires 0 <= c < Size(v) && c != 6
    ensures FreeRows(v, c, Size(v) - 11, Size(v)) == BottomFree(v, c)
  {
    hide IsFunction, Hit;
    var s := Size(v);
    forall r | s - 11 <= r < s ensures IsFunction(v, r, c) <==>
      (c <= 8 && r >= s - 8) || (c < 6 && v >= 7 && r < s - 8) || (c >= 9 && Hit(v, c) && s - 9 <= r <= s - 5)
    {
      BottomRule(v, r, c);
    }
    FreeRowsSplit(v, c, s - 11, s - 9, s);
    FreeRowsSplit(v, c, s - 9, s - 8, s);
    FreeRowsSplit(v, c, s - 8, s - 4, s);
    if c <= 8 {
      FreeRowsNone(v, c, s - 8, s - 4); FreeRowsNone(v, c, s - 4, s);
      if c < 6 && v >= 7 {
        FreeRowsNone(v, c, s - 11, s - 9); FreeRowsNone(v, c, s - 9, s - 8);
      } else {
        FreeRowsAll(v, c, s - 11, s - 9); FreeRowsAll(v, c, s - 9, s - 8);
      }
    } else {
      FreeRowsAll(v, c, s - 11, s - 9);
      FreeRowsAll(v, c, s - 4, s);
      if Hit(v, c) {
        FreeRowsNone(v, c, s - 9, s - 8); FreeRowsNone(v, c, s - 8, s - 4);
      } else {
        FreeRowsAll(v, c, s - 9, s - 8); FreeRowsAll(v, c, s - 8, s - 4);
      }
    }
  }

  function ColumnFree(v: Version, c: int): int {
    TopFree(v, c) + InnerFree(v, c) + BottomFree(v, c)
  }

  lemma ColumnCount(v: Version, c: int)
    requires 0 <= c < Size(v) && c != 6
    ensures FreeRows(v, c, 0, Size(v)) == ColumnFree(v, c)
  {
    hide IsFunction, Hit, TopFree, BottomFree, InnerFree;
    FreeRowsSplit(v, c, 0, 9, Size(v));
    FreeRowsSplit(v, c, 9, Size(v) - 11, Size(v));
    TopRows(v, c);
    MiddleRows(v, c);
    BottomRows(v, c);
  }

  // ---- All columns -------------------------------------------------------

  /** Free modules of columns 0 .. hi-1, leaving out column 6. */
  function FreeColumns(v: Version, hi: int): int
    requires hi >= 0
    decreases hi
  {
    if hi == 0 then 0 else FreeColumns(v, hi - 1) + if hi == 7 then 0 else FreeRows(v, hi - 1, 0, Size(v))
  }

  /** A run of columns with the same number of free modules. */
  lemma {:induction false} ColumnRun(v: Version, lo: int, hi: int, f: int)
    requires 0 <= lo <= hi <= Size(v) && (hi <= 6 || lo >= 7)
    requires forall c :: lo <= c < hi ==> ColumnFree(v, c) == f
    ensures FreeColumns(v, hi) == FreeColumns(v, lo) + (hi - lo) * f
    decreases hi - lo
  {
    hide ColumnFree, FreeRows;
    if lo < hi {
      ColumnRun(v, lo, hi - 1, f);
      ColumnCount(v, hi - 1);
      assert ColumnFree(v, hi - 1) == f;
      SumOfRuns(hi - 1 - lo, 1, f);
    }
  }

  lemma MiddleColumn(v: Version, c: int)
    requires 9 <= c < Size(v) - 11
    ensures ColumnFree(v, c) ==
      if (Inner(v) >= 1 && Near(Align(v)[1], c)) || (Inner(v) == 2 && Near(Align(v)[2], c))
      then Size(v) - 10 - 5 * Inner(v) else Size(v) - 1
  {
    hide Align, Hit, InnerHit;
    HitRegions(v, c);
    InnerHits(v, c);
    assert InnerHit(v, c) <==> exists i :: 1 <= i <= Inner(v) && Near(Align(v)[i], c);
  }

  lemma SumOfRuns(x: int, y: int, f: int)
    ensures x * f + y * f == (x + y) * f
  {}

  /** Columns 9 .. size-12: the inner alignment centres, five columns each. */
  lemma MiddleColumns(v: Version)
    ensures FreeColumns(v, Size(v) - 11) == FreeColumns(v, 9)
      + (Size(v) - 20 - 5 * Inner(v)) * (Size(v) - 1) + 5 * Inner(v) * (Size(v) - 10 - 5 * Inner(v))
  {
    hide Align, Hit, FreeColumns, ColumnFree, Inner;
    var (s, pos, m) := (Size(v), Align(v), Inner(v));
    AlignShape(v);
    InnerIs(v);
    var plain, crossed := s - 1, s - 10 - 5 * m;
    forall c | 9 <= c < s - 11 ensures ColumnFree(v, c) ==
      if (m >= 1 && Near(pos[1], c)) || (m == 2 && Near(pos[2], c)) then crossed else plain
    {
      MiddleColumn(v, c);
    }
    if m == 0 {
      ColumnRun(v, 9, s - 11, plain);
    } else {
      var p := pos[1];
      ColumnRun(v, 9, p - 2, plain);
      ColumnRun(v, p - 2, p + 3, crossed);
      if m == 1 {
        ColumnRun(v, p + 3, s - 11, plain);
        SumOfRuns(p - 11, s - 14 - p, plain);
      } else {
        var q := pos[2];
        ColumnRun(v, p + 3, q - 2, plain);
        ColumnRun(v, q - 2, q + 3, crossed);
        ColumnRun(v, q + 3, s - 11, plain);
        SumOfRuns(p - 11, q - p - 5, plain);
        SumOfRuns(q - 16, s - 14 - q, plain);
      }
    }
  }

  lemma InnerIs(v: Version)
    ensures Inner(v) == if v == 1 then 0 else |Align(v)| - 2
  {}

  lemma LeftColumn(v: Version, c: int)
    requires 0 <= c < 9 && c != 6
    ensures ColumnFree(v, c) ==
      (if 4 <= c then Size(v) - 20 - 5 * Inner(v) else Size(v) - 20) + if c < 6 && v >= 7 then 0 else 3
  {
    hide Align, Hit;
    HitRegions(v, c);
    InnerIs(v);
  }

  /** Columns 0 .. 8. */
  lemma LeftColumns(v: Version)
    ensures FreeColumns(v, 9) == 8 * (Size(v) - 17) - 20 * Inner(v) - if v >= 7 then 18 else 0
  {
    hide Align, Hit, FreeRows, ColumnFree, Inner;
    var s: int := Size(v);
    var m: int := Inner(v);
    forall c | 0 <= c < 9 && c != 6 ensures ColumnFree(v, c) ==
      (if 4 <= c then s - 20 - 5 * m else s - 20) + if c < 6 && v >= 7 then 0 else 3
    {
      LeftColumn(v, c);
    }
    var w := if v >= 7 then 0 else 3;
    TimingColumn(v);
    hide *;
    ColumnRun(v, 0, 4, s - 20 + w);
    ColumnRun(v, 4, 6, s - 20 - 5 * m + w);
    ColumnRun(v, 7, 9, s - 20 - 5 * m + 3);
    assert s == Size(v);
  }

  lemma TimingColumn(v: Version)
    ensures FreeColumns(v, 0) == 0 && FreeColumns(v, 7) == FreeColumns(v, 6)
  {
    hide ColumnFree;
  }

  /** Columns size-11 .. size-1. */
  lemma RightColumns(v: Version)
    ensures FreeColumns(v, Size(v)) == FreeColumns(v, Size(v) - 11)
      + 3 * (Size(v) - 1) + 8 * (Size(v) - 9) - (if v >= 7 then 18 else 0)
      - (if v > 1 then 25 * (Inner(v) + 1) else 0)
  {
    hide Align, Hit, FreeColumns;
    var (s, m) := (Size(v), Inner(v));
    AlignShape(v);
    var cross := if v > 1 then 5 * m + 5 else 0;
    var info := if v >= 7 then 6 else 0;
    forall c | s - 11 <= c < s ensures ColumnFree(v, c) ==
      (if c < s - 8 then s - 1 - info else s - 9) - if s - 9 <= c <= s - 5 then cross else 0
    {
      HitRegions(v, c);
    }
    hide ColumnFree;
    ColumnRun(v, s - 11, s - 9, s - 1 - info);
    ColumnRun(v, s - 9, s - 8, s - 1 - info - cross);
    ColumnRun(v, s - 8, s - 4, s - 9 - cross);
    ColumnRun(v, s - 4, s, s - 9);
  }

  /** Modules left over when every codeword has its eight. */
  function RemainderBits(v: Version): nat {
    if 2 <= v <= 6 then 7 else if v >= 14 then 3 else 0
  }

  /** The free modules are exactly the bits of the final sequence plus the remainder bits
      of table 1 of ISO/IEC 18004:2015. */
  lemma FreeModules(v: Version)
    ensures FreeColumns(v, Size(v)) == 8 * TotalBytes(v) + RemainderBits(v)
  {
    hide FreeColumns;
    LeftColumns(v);
    MiddleColumns(v);
    RightColumns(v);
  }
}
