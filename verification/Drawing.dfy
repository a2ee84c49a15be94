/** The matrix of a symbol and the loops that draw on it. */
module Drawing {
  import opened Wrappers
  import opened Numbers
  import opened Bits
  import opened Versions
  import opened Layout
  import opened Counting
  import opened Zigzag
  import opened Symbols
  import Bch

  /** A module's value, None until drawn, and whether it belongs to a function pattern. */
  datatype Cell = Cell(val: Option<bool>, fn: bool)

  const BLANK := Cell(None, false)

  class Matrix {
    const size: nat
    const m: array2<Option<bool>>
    const fn: array2<bool>

    ghost predicate Valid() {
      m.Length0 == m.Length1 == fn.Length0 == fn.Length1 == size
    }

    predicate Inside(r: int, c: int) {
      0 <= r < size && 0 <= c < size
    }

    ghost function At(r: int, c: int): Cell
      requires Valid() && Inside(r, c)
      reads m, fn
    {
      Cell(m[r, c], fn[r, c])
    }

    /** makeMatrix: nothing drawn, nothing reserved. */
    constructor (n: nat)
      ensures Valid() && size == n && fresh(m) && fresh(fn)
      ensures forall r, c :: Inside(r, c) ==> At(r, c) == BLANK
    {
      size := n;
      m := new Option<bool>[n, n]((_, _) => None);
      fn := new bool[n, n]((_, _) => false);
    }

    method SetFn(r: int, c: int, val: bool)
      requires Valid() && Inside(r, c)
      modifies m, fn
      ensures forall i, j :: Inside(i, j) ==>
        At(i, j) == if i == r && j == c then Cell(Some(val), true) else old(At(i, j))
    {
      m[r, c] := Some(val);
      fn[r, c] := true;
    }

    // ---- Function patterns -----------------------------------------------

    method PlaceFinder(r: int, c: int)
      requires Valid()
      modifies m, fn
      ensures forall i, j :: Inside(i, j) ==> At(i, j) == FinderStep(r, c, i, j, old(At(i, j)))
    {
      for dr := -1 to 8
        invariant forall i, j :: Inside(i, j) ==>
          At(i, j) == if i - r < dr then FinderStep(r, c, i, j, old(At(i, j))) else old(At(i, j))
      {
        for dc := -1 to 8
          invariant forall i, j :: Inside(i, j) ==>
            At(i, j) == if i - r < dr || (i - r == dr && j - c < dc) then FinderStep(r, c, i, j, old(At(i, j))) else old(At(i, j))
        {
          var rr, cc := r + dr, c + dc;
          if rr < 0 || cc < 0 || rr >= size || cc >= size { continue; }
          var inRing := dr >= 0 && dr <= 6 && dc >= 0 && dc <= 6;
          var dark := inRing &&
            (dr == 0 || dr == 6 || dc == 0 || dc == 6 || (dr >= 2 && dr <= 4 && dc >= 2 && dc <= 4));
          SetFn(rr, cc, dark);
        }
      }
    }

    /** One alignment pattern: the two inner loops of placeAlignment. */
    method StampAlignment(r: int, c: int)
      requires Valid() && Inside(r - 2, c - 2) && Inside(r + 2, c + 2)
      modifies m, fn
      ensures forall i, j :: Inside(i, j) ==> At(i, j) == StampStep(r, c, i, j, old(At(i, j)))
    {
      for dr := -2 to 3
        invariant forall i, j :: Inside(i, j) ==>
          At(i, j) == if i - r < dr then StampStep(r, c, i, j, old(At(i, j))) else old(At(i, j))
      {
        for dc := -2 to 3
          invariant forall i, j :: Inside(i, j) ==>
            At(i, j) == if i - r < dr || (i - r == dr && j - c < dc) then StampStep(r, c, i, j, old(At(i, j))) else old(At(i, j))
        {
          SetFn(r + dr, c + dc, Max(Abs(dr), Abs(dc)) != 1);
        }
      }
    }

    method PlaceAlignment(v: Version)
      requires Valid() && size == Size(v)
      modifies m, fn
      ensures forall r, c :: Inside(r, c) ==> At(r, c) == AlignmentStep(v, r, c, old(At(r, c)))
    {
      hide InPattern, AlignmentValue, Align, Near, Ring;
      var pos := Align(v);
      for i := 0 to |pos|
        invariant forall r, c :: Inside(r, c) ==>
          At(r, c) == if StampedBefore(v, i, 0, r, c) then Cell(Some(AlignmentValue(v, r, c)), true) else old(At(r, c))
      {
        for j := 0 to |pos|
          invariant forall r, c :: Inside(r, c) ==>
            At(r, c) == if StampedBefore(v, i, j, r, c) then Cell(Some(AlignmentValue(v, r, c)), true) else old(At(r, c))
        {
          forall r, c { StampedNext(v, i, j, r, c); }
          AlignInside(v, i);
          AlignInside(v, j);
          forall r, c { StampIsAlignment(v, i, j, r, c); }
          if OnFinder(size, pos[i], pos[j]) { continue; }
          StampAlignment(pos[i], pos[j]);
        }
        forall r, c { StampedRow(v, i, r, c); }
      }
      forall r, c { StampedAll(v, r, c); }
    }

    method PlaceTimingAndDark(v: Version)
      requires Valid() && size == Size(v)
      modifies m, fn
      ensures forall r, c :: Inside(r, c) ==> At(r, c) == DarkStep(v, r, c, TimingStep(size, size - 8, r, c, old(At(r, c))))
    {
      for i := 8 to size - 8
        invariant forall r, c :: Inside(r, c) ==> At(r, c) == TimingStep(size, i, r, c, old(At(r, c)))
      {
        if !fn[6, i] { SetFn(6, i, i % 2 == 0); }
        if !fn[i, 6] { SetFn(i, 6, i % 2 == 0); }
      }
      SetFn(4 * v + 9, 8, true);
    }

    method ReserveFormat()
      requires Valid() && size >= 21
      modifies m, fn
      ensures forall r, c :: Inside(r, c) ==> At(r, c) == FormatStep(size, 9, 8, r, c, old(At(r, c)))
    {
      for i := 0 to 9
        invariant forall r, c :: Inside(r, c) ==> At(r, c) == FormatStep(size, i, 0, r, c, old(At(r, c)))
      {
        if !fn[8, i] { SetFn(8, i, false); }
        if !fn[i, 8] { SetFn(i, 8, false); }
      }
      for j := 0 to 8
        invariant forall r, c :: Inside(r, c) ==> At(r, c) == FormatStep(size, 9, j, r, c, old(At(r, c)))
      {
        if !fn[8, size - 1 - j] { SetFn(8, size - 1 - j, false); }
        if !fn[size - 1 - j, 8] { SetFn(size - 1 - j, 8, false); }
      }
    }

    method ReserveVersion(v: Version)
      requires Valid() && size == Size(v)
      modifies m, fn
      ensures forall r, c :: Inside(r, c) ==> At(r, c) == VersionStep(v, 6, 0, r, c, old(At(r, c)))
    {
      if v < 7 { return; }
      for i := 0 to 6
        invariant forall r, c :: Inside(r, c) ==> At(r, c) == VersionStep(v, i, 0, r, c, old(At(r, c)))
      {
        for j := 0 to 3
          invariant forall r, c :: Inside(r, c) ==> At(r, c) == VersionStep(v, i, j, r, c, old(At(r, c)))
        {
          SetFn(i, size - 11 + j, false);
          SetFn(size - 11 + j, i, false);
        }
      }
    }

    // ---- Data and information words --------------------------------------

    /** cloneModules */
    constructor Clone(base: Matrix)
      requires base.Valid()
      ensures Valid() && size == base.size && fresh(m) && fresh(fn)
      ensures forall r, c :: Inside(r, c) ==> At(r, c) == base.At(r, c)
    {
      size := base.size;
      var m' := new Option<bool>[base.size, base.size]((_, _) => None);
      var fn' := new bool[base.size, base.size]((_, _) => false);
      for r := 0 to base.size
        invariant forall i, j :: 0 <= i < r && 0 <= j < base.size ==> m'[i, j] == base.m[i, j] && fn'[i, j] == base.fn[i, j]
      {
        for c := 0 to base.size
          invariant forall i, j :: 0 <= i < r && 0 <= j < base.size ==> m'[i, j] == base.m[i, j] && fn'[i, j] == base.fn[i, j]
          invariant forall j :: 0 <= j < c ==> m'[r, j] == base.m[r, j] && fn'[r, j] == base.fn[r, j]
        {
          m'[r, c] := base.m[r, c];
          fn'[r, c] := base.fn[r, c];
        }
      }
      m, fn := m', fn';
    }

    ghost predicate FunctionLayout(v: Version)
      requires Valid()
      reads fn
    {
      size == Size(v) && forall r, c :: Inside(r, c) ==> (fn[r, c] <==> IsFunction(v, r, c))
    }

    /** The k-th of these modules holds the k-th bit (false past the end), masked. */
    ghost predicate HoldsData(cells: seq<Pos>, bits: seq<bool>, mask: nat)
      requires Valid()
      reads m
    {
      forall k :: 0 <= k < |cells| ==>
        (Inside(cells[k].r, cells[k].c) &&
         m[cells[k].r, cells[k].c] == Some(DataBit(bits, k) != MaskFn(mask, cells[k].r, cells[k].c)))
    }

    /** placeData after visiting these modules. */
    ghost predicate Progress(v: Version, done: seq<Pos>, bits: seq<bool>, mask: nat, idx: nat)
      requires Valid()
      reads m
    {
      HoldsData(FreeOf(v, done), bits, mask) && idx == |FreeOf(v, done)| &&
      forall k :: 0 <= k < idx ==> FreeOf(v, done)[k] in done
    }

    /** The innermost step of placeData: one module, unless it is a function module. */
    method PlaceModule(ghost v: Version, ghost done: seq<Pos>, bits: seq<bool>, mask: nat, idx: nat, row: nat, c: nat)
      returns (next: nat)
      requires Valid() && FunctionLayout(v) && Inside(row, c)
      requires Progress(v, done, bits, mask, idx) && Pos(row, c) !in done
      modifies m
      ensures Progress(v, done + [Pos(row, c)], bits, mask, next)
      ensures forall i, j :: Inside(i, j) && IsFunction(v, i, j) ==> m[i, j] == old(m[i, j])
    {
      hide IsFunction, MaskFn, FreeOf;
      ghost var p := Pos(row, c);
      FreeOfPush(v, done, p);
      if fn[row, c] { return idx; }
      var dark := if idx < |bits| then bits[idx] else false;
      next := idx + 1;
      if MaskFn(mask, row, c) { dark := !dark; }
      m[row, c] := Some(dark);
    }

    lemma NothingDone(v: Version, bits: seq<bool>, mask: nat)
      requires Valid()
      ensures Progress(v, [], bits, mask, 0)
    {}

    lemma AllDone(v: Version, bits: seq<bool>, mask: nat, idx: nat)
      requires Valid() && Progress(v, Walk(Size(v), Size(v) - 1, true), bits, mask, idx)
      ensures HoldsData(FreeCells(v), bits, mask)
    {}

    /** One pass over two columns. */
    method PlacePair(ghost v: Version, ghost done: seq<Pos>, bits: seq<bool>, mask: nat, idx: nat, col: nat, up: bool)
      returns (next: nat)
      requires Valid() && FunctionLayout(v) && 0 < col < size
      requires NoDuplicates(done + PairCells(size, col, up, 0))
      requires Progress(v, done, bits, mask, idx)
      modifies m
      ensures Progress(v, done + PairCells(size, col, up, 0), bits, mask, next)
      ensures forall i, j :: Inside(i, j) && IsFunction(v, i, j) ==> m[i, j] == old(m[i, j])
    {
      hide IsFunction, MaskFn, FreeOf, PairCells, Progress;
      next := idx;
      ghost var whole, seen := done + PairCells(size, col, up, 0), done;
      for i := 0 to size
        invariant whole == seen + PairCells(size, col, up, i)
        invariant Progress(v, seen, bits, mask, next)
        invariant forall r, c :: Inside(r, c) && IsFunction(v, r, c) ==> m[r, c] == old(m[r, c])
      {
        var row := if up then size - 1 - i else i;
        ghost var (p, q, tail) := (Pos(row, col), Pos(row, col - 1), PairCells(size, col, up, i + 1));
        PairUnfolds(size, col, up, i);
        assert whole == seen + [p] + ([q] + tail);
        NextIsNew(seen, p, [q] + tail);
        next := PlaceModule(v, seen, bits, mask, next, row, col);
        seen := seen + [p];
        assert whole == seen + [q] + tail;
        NextIsNew(seen, q, tail);
        next := PlaceModule(v, seen, bits, mask, next, row, col - 1);
        seen := seen + [q];
        assert whole == seen + tail;
      }
      PairEnds(size, col, up);
      assert seen + [] == seen;
    }

    method PlaceData(ghost v: Version, bits: seq<bool>, mask: nat)
      requires Valid() && FunctionLayout(v)
      modifies m
      ensures HoldsData(FreeCells(v), bits, mask)
      ensures forall r, c :: Inside(r, c) && IsFunction(v, r, c) ==> m[r, c] == old(m[r, c])
    {
      hide IsFunction, MaskFn, FreeOf, PairCells, Walk, Progress, HoldsData, FreeCells;
      ghost var whole := Walk(size, size - 1, true);
      WalkDistinct(size, size - 1, true);
      ghost var done: seq<Pos> := [];
      NothingDone(v, bits, mask);
      var idx := 0;
      var up := true;
      var col: int := size - 1;
      while col > 0
        invariant GoodColumn(col) && -1 <= col < size
        invariant whole == done + Walk(size, col, up)
        invariant Progress(v, done, bits, mask, idx)
        invariant forall r, c :: Inside(r, c) && IsFunction(v, r, c) ==> m[r, c] == old(m[r, c])
        decreases col
      {
        WalkUnfolds(size, col, up);
        if col == 6 { col := 5; }
        ghost var pair, rest := PairCells(size, col, up, 0), Walk(size, col - 2, !up);
        assert whole == (done + pair) + rest;
        assert NoDuplicates(done + pair) by { PrefixDistinct(done + pair, rest); }
        idx := PlacePair(v, done, bits, mask, idx, col, up);
        done := done + pair;
        up := !up;
        col := col - 2;
      }
      WalkEnds(size, col, up);
      assert done + [] == done;
      AllDone(v, bits, mask, idx);
    }

    // ---- Information words -----------------------------------------------

    method PlaceFormat(mask: nat)
      requires Valid() && size >= 21
      modifies m
      ensures forall r, c :: Inside(r, c) ==>
        m[r, c] == Drawn(Bch.FormatWord(mask), FormatBit(size, r, c), 15, old(m[r, c]))
    {
      var word := Bch.BchWord(Bch.FormatData(mask), Bch.FORMAT_GENERATOR);
      word := Bch.XorBits(word, Bch.FORMAT_MASK);
      FormatWordIs(mask);
      DrawFormatColumn(word);
      DrawFormatRow(word);
    }

    /** Copy 1: column 8. */
    method DrawFormatColumn(word: seq<bool>)
      requires Valid() && size >= 21
      modifies m
      ensures forall r, c :: Inside(r, c) ==>
        m[r, c] == if c == 8 then Drawn(word, FormatBit(size, r, 8), 15, old(m[r, c])) else old(m[r, c])
    {
      hide WordBit;
      for i := 0 to 15
        invariant forall r, c :: Inside(r, c) ==>
          m[r, c] == if c == 8 then Drawn(word, FormatBit(size, r, 8), i, old(m[r, c])) else old(m[r, c])
      {
        var b := WordBit(word, i);
        if i < 6 { m[i, 8] := Some(b); }
        else if i < 8 { m[i + 1, 8] := Some(b); }
        else { m[size - 15 + i, 8] := Some(b); }
      }
    }

    /** Copy 2: row 8. */
    method DrawFormatRow(word: seq<bool>)
      requires Valid() && size >= 21
      modifies m
      ensures forall r, c :: Inside(r, c) ==>
        m[r, c] == if c != 8 then Drawn(word, FormatBit(size, r, c), 15, old(m[r, c])) else old(m[r, c])
    {
      hide WordBit;
      for j := 0 to 15
        invariant forall r, c :: Inside(r, c) ==>
          m[r, c] == if c != 8 then Drawn(word, FormatBit(size, r, c), j, old(m[r, c])) else old(m[r, c])
      {
        var b := WordBit(word, j);
        if j < 8 { m[8, size - 1 - j] := Some(b); }
        else if j < 9 { m[8, 7] := Some(b); }
        else { m[8, 14 - j] := Some(b); }
      }
    }

    method PlaceVersion(v: Version)
      requires Valid() && size == Size(v)
      modifies m
      ensures forall r, c :: Inside(r, c) ==>
        m[r, c] == Drawn(Bch.VersionWord(v), VersionBit(v, r, c), 18, old(m[r, c]))
    {
      hide Bch.Word, WordBit, VersionBit;
      if v < 7 { SmallVersions(v); return; }
      var word := Bch.BchWord(NatBits(v, 6), Bch.VERSION_GENERATOR);
      for i := 0 to 18
        invariant forall r, c :: Inside(r, c) ==>
          m[r, c] == Drawn(word, VersionBit(v, r, c), i, old(m[r, c]))
      {
        var bit := WordBit(word, i);
        var r, c := i / 3, i % 3;
        forall k, l | Inside(k, l) { VersionPlaces(v, i, k, l); }
        m[r, size - 11 + c] := Some(bit);
        m[size - 11 + c, r] := Some(bit);
      }
    }
  }

  // ---- What each step does to a cell -------------------------------------

  /** A module that carries an information bit, once the bits below hi are drawn. */
  function Drawn(word: seq<bool>, place: Option<nat>, hi: nat, before: Option<bool>): Option<bool> {
    if place.Some? && place.value < hi then Some(WordBit(word, place.value)) else before
  }

  function FinderStep(r0: int, c0: int, r: int, c: int, cell: Cell): Cell {
    var p := FinderValue(r - r0, c - c0);
    if p.Some? then Cell(p, true) else cell
  }

  function StampStep(r0: int, c0: int, r: int, c: int, cell: Cell): Cell {
    if Near(r0, r) && Near(c0, c) then Cell(Some(Ring(r - r0, c - c0)), true) else cell
  }

  function AlignmentStep(v: Version, r: int, c: int, cell: Cell): Cell {
    if InAlignment(v, r, c) then Cell(Some(AlignmentValue(v, r, c)), true) else cell
  }

  /** The timing patterns up to coordinate hi; modules already drawn stay. */
  function TimingStep(size: nat, hi: int, r: int, c: int, cell: Cell): Cell {
    if cell.fn then cell
    else if r == 6 && 8 <= c < hi then Cell(Some(c % 2 == 0), true)
    else if c == 6 && 8 <= r < hi then Cell(Some(r % 2 == 0), true)
    else cell
  }

  function DarkStep(v: Version, r: int, c: int, cell: Cell): Cell {
    if r == 4 * v + 9 && c == 8 then Cell(Some(true), true) else cell
  }

  /** The first n places beside the top left finder, k places beside the two others. */
  function FormatStep(size: nat, n: int, k: int, r: int, c: int, cell: Cell): Cell {
    if !cell.fn && ((r == 8 && (c < n || c >= size - k)) || (c == 8 && (r < n || r >= size - k)))
    then Cell(Some(false), true) else cell
  }

  /** Rows (columns) 0 .. i-1 of both version blocks, and j places of the next. */
  function VersionStep(v: Version, i: int, j: int, r: int, c: int, cell: Cell): Cell {
    var s := Size(v);
    if v >= 7 && ((s - 11 <= c < s - 8 && 0 <= r && (r < i || (r == i && c - (s - 11) < j))) ||
                  (s - 11 <= r < s - 8 && 0 <= c && (c < i || (c == i && r - (s - 11) < j))))
    then Cell(Some(false), true) else cell
  }

  /** All of buildBase on one cell. */
  function BaseCell(v: Version, r: int, c: int): Cell {
    var s := Size(v);
    var f := FinderStep(s - 7, 0, r, c, FinderStep(0, s - 7, r, c, FinderStep(0, 0, r, c, BLANK)));
    var t := DarkStep(v, r, c, TimingStep(s, s - 8, r, c, AlignmentStep(v, r, c, f)));
    VersionStep(v, 6, 0, r, c, FormatStep(s, 9, 8, r, c, t))
  }

  /** The order of drawing leaves exactly the closed form. */
  lemma BaseCellIs(v: Version, r: int, c: int)
    requires 0 <= r < Size(v) && 0 <= c < Size(v)
    ensures BaseCell(v, r, c) == Cell(BaseValue(v, r, c), IsFunction(v, r, c))
  {
    hide InAlignment, Hit, AlignmentValue;
    AlignmentByAxis(v, r, c);
    HitRegions(v, r);
    HitRegions(v, c);
  }

  // ---- Alignment patterns do not overlap ---------------------------------

  ghost predicate StampedBefore(v: Version, i: nat, j: nat, r: int, c: int) {
    var n := |Align(v)|;
    exists k, l :: 0 <= k < n && 0 <= l < n && (k < i || (k == i && l < j)) && InPattern(v, k, l, r, c)
  }

  lemma StampedNext(v: Version, i: nat, j: nat, r: int, c: int)
    requires i < |Align(v)| && j < |Align(v)|
    ensures StampedBefore(v, i, j + 1, r, c) <==> StampedBefore(v, i, j, r, c) || InPattern(v, i, j, r, c)
  {
    hide InPattern, Align;
  }

  lemma StampedRow(v: Version, i: nat, r: int, c: int)
    ensures StampedBefore(v, i + 1, 0, r, c) <==> StampedBefore(v, i, |Align(v)|, r, c)
  {
    hide InPattern, Align;
  }

  lemma StampedAll(v: Version, r: int, c: int)
    ensures StampedBefore(v, |Align(v)|, 0, r, c) <==> InAlignment(v, r, c)
    ensures !StampedBefore(v, 0, 0, r, c)
  {
    hide InPattern, Align;
  }

  lemma AlignInside(v: Version, i: nat)
    requires i < |Align(v)|
    ensures 6 <= Align(v)[i] <= Size(v) - 7
  {}

  lemma NearOffset(v: Version, i: nat, x: int)
    requires i < |Align(v)| && Near(Align(v)[i], x)
    ensures AxisOffset(Align(v), x) == x - Align(v)[i]
  {
    AlignShape(v);
    var pos := Align(v);
    if i >= 1 { assert AxisOffset(pos, x) == AxisOffset(pos[1..], x); }
    if i >= 2 { assert AxisOffset(pos[1..], x) == AxisOffset(pos[1..][1..], x); }
    if i >= 3 { assert AxisOffset(pos[1..][1..], x) == AxisOffset(pos[1..][1..][1..], x); }
  }

  lemma StampIsAlignment(v: Version, i: nat, j: nat, r: int, c: int)
    requires i < |Align(v)| && j < |Align(v)|
    ensures InPattern(v, i, j, r, c) <==>
      !OnFinder(Size(v), Align(v)[i], Align(v)[j]) && Near(Align(v)[i], r) && Near(Align(v)[j], c)
    ensures InPattern(v, i, j, r, c) ==> Ring(r - Align(v)[i], c - Align(v)[j]) == AlignmentValue(v, r, c)
  {
    hide Align;
    if InPattern(v, i, j, r, c) {
      NearOffset(v, i, r);
      NearOffset(v, j, c);
    }
  }

  // ---- The walk, one step at a time --------------------------------------

  lemma WalkUnfolds(size: nat, col: int, up: bool)
    requires col > 0
    ensures Walk(size, col, up) == PairCells(size, SkipTiming(col), up, 0) + Walk(size, SkipTiming(col) - 2, !up)
  {}

  lemma WalkEnds(size: nat, col: int, up: bool)
    requires col <= 0
    ensures Walk(size, col, up) == []
  {}

  lemma PairUnfolds(size: nat, col: int, up: bool, i: int)
    requires 0 <= i < size
    ensures var row := RowAt(size, up, i);
      PairCells(size, col, up, i) == [Pos(row, col), Pos(row, col - 1)] + PairCells(size, col, up, i + 1)
  {}

  lemma PairEnds(size: nat, col: int, up: bool)
    ensures PairCells(size, col, up, size) == []
  {}

  lemma NextIsNew(done: seq<Pos>, p: Pos, rest: seq<Pos>)
    requires NoDuplicates(done + [p] + rest)
    ensures p !in done
  {
    var s := done + [p] + rest;
    assert s[|done|] == p;
    forall i | 0 <= i < |done| ensures done[i] != p { assert s[i] == done[i]; }
  }

  lemma PrefixDistinct(a: seq<Pos>, b: seq<Pos>)
    requires NoDuplicates(a + b)
    ensures NoDuplicates(a)
  {
    forall i, j | 0 <= i < j < |a| ensures a[i] != a[j] { assert (a + b)[i] == a[i] && (a + b)[j] == a[j]; }
  }

  lemma FreeOfPush(v: Version, done: seq<Pos>, p: Pos)
    ensures FreeOf(v, done + [p]) == FreeOf(v, done) + if IsFunction(v, p.r, p.c) then [] else [p]
  {
    assert (done + [p])[..|done|] == done;
  }

  lemma SmallVersions(v: Version)
    requires v < 7
    ensures forall r, c :: VersionBit(v, r, c) == None
  {}

  /** Version bit i stands at two places, mirrored on the diagonal. */
  lemma VersionPlaces(v: Version, i: nat, r: int, c: int)
    requires v >= 7 && i < 18
    ensures VersionBit(v, r, c) == Some(i) <==>
      (r == i / 3 && c == Size(v) - 11 + i % 3) || (c == i / 3 && r == Size(v) - 11 + i % 3)
  {}

  lemma FormatWordIs(mask: nat)
    ensures Bch.FormatWord(mask) == Bch.XorBits(Bch.Word(Bch.FormatData(mask), Bch.FORMAT_GENERATOR), Bch.FORMAT_MASK)
  {}

  method BuildBase(v: Version) returns (M: Matrix)
    ensures M.Valid() && M.size == Size(v) && fresh(M.m) && fresh(M.fn)
    ensures forall r, c :: M.Inside(r, c) ==> M.At(r, c) == Cell(BaseValue(v, r, c), IsFunction(v, r, c))
  {
    hide FinderStep, AlignmentStep, DarkStep, TimingStep, FormatStep, VersionStep, BaseValue, IsFunction;
    M := new Matrix(Size(v));
    M.PlaceFinder(0, 0);
    M.PlaceFinder(0, Size(v) - 7);
    M.PlaceFinder(Size(v) - 7, 0);
    M.PlaceAlignment(v);
    M.PlaceTimingAndDark(v);
    M.ReserveFormat();
    M.ReserveVersion(v);
    forall r, c | M.Inside(r, c) ensures M.At(r, c) == Cell(BaseValue(v, r, c), IsFunction(v, r, c)) {
      BaseCellIs(v, r, c);
    }
  }
}
