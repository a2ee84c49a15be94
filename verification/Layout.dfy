/** Which modules of a symbol are function modules, in closed form. */
module Layout {
  import opened Versions

  predicate Near(p: int, x: int) {
    p - 2 <= x <= p + 2
  }

  /** The centres the source skips because a finder pattern is there. */
  predicate OnFinder(size: nat, r: int, c: int) {
    (r <= 7 && c <= 7) || (r <= 7 && c >= size - 8) || (r >= size - 8 && c <= 7)
  }

  predicate InPattern(v: Version, i: nat, j: nat, r: int, c: int)
    requires i < |Align(v)| && j < |Align(v)|
  {
    var pos := Align(v);
    !OnFinder(Size(v), pos[i], pos[j]) && Near(pos[i], r) && Near(pos[j], c)
  }

  predicate InAlignment(v: Version, r: int, c: int) {
    var n := |Align(v)|;
    exists i, j :: 0 <= i < n && 0 <= j < n && InPattern(v, i, j, r, c)
  }

  predicate InVersionInfo(v: Version, r: int, c: int) {
    v >= 7 && ((0 <= r < 6 && Size(v) - 11 <= c < Size(v) - 8) ||
               (0 <= c < 6 && Size(v) - 11 <= r < Size(v) - 8))
  }

  /** Finders with separators and format information. */
  predicate InCorner(v: Version, r: int, c: int) {
    (r <= 8 && c <= 8) || (r <= 8 && c >= Size(v) - 8) || (r >= Size(v) - 8 && c <= 8)
  }

  predicate IsFunction(v: Version, r: int, c: int) {
    InCorner(v, r, c) || r == 6 || c == 6 || InAlignment(v, r, c) || InVersionInfo(v, r, c)
  }

  // ---- The alignment axis ------------------------------------------------

  /** A coordinate covered by some alignment pattern. */
  predicate Hit(v: Version, x: int) {
    exists i :: 0 <= i < |Align(v)| && Near(Align(v)[i], x)
  }

  lemma AlignShape(v: Version)
    ensures |Align(v)| == if v == 1 then 0 else if v <= 6 then 2 else if v in {14, 15, 16, 17, 18, 19, 20} then 4 else 3
    ensures v > 1 ==> Align(v)[0] == 6 && Align(v)[|Align(v)| - 1] == Size(v) - 7
    ensures v >= 7 ==> 22 <= Align(v)[1]
    ensures v >= 7 ==> Align(v)[|Align(v)| - 2] <= Size(v) - 23
    ensures |Align(v)| == 4 ==> Align(v)[1] + 20 <= Align(v)[2]
    ensures forall i :: 0 <= i < |Align(v)| ==> Align(v)[i] % 2 == 0
  {}
}
