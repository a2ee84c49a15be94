/** Mask scoring: the loops of penalty() compute the four scores of section 7.8.3 of
    ISO/IEC 18004:2015, stated here over runs and sets of places. */
module Penalty {
  import opened Wrappers
  import opened Numbers
  import opened Symbols

  type Line = seq<bool>

  // ---- Rule 1 ----------------------------------------------------------------

  /** The length of the run at the end. */
  function LastRun(s: Line): (n: nat)
    requires s != []
    ensures 1 <= n <= |s|
  {
    if |s| == 1 || s[|s| - 2] != s[|s| - 1] then 1 else 1 + LastRun(s[..|s| - 1])
  }

  /** It is all the modules at the end of one colour, and no more. */
  lemma {:induction false} LastRunIsMaximal(s: Line)
    requires s != []
    ensures var lo := |s| - LastRun(s);
      (forall i :: lo <= i < |s| ==> s[i] == s[|s| - 1]) && (lo > 0 ==> s[lo - 1] != s[|s| - 1])
  {
    if |s| > 1 && s[|s| - 2] == s[|s| - 1] {
      LastRunIsMaximal(s[..|s| - 1]);
    }
  }

  function RunScore(length: nat): nat {
    if length >= 5 then length - 2 else 0
  }

  /** The scores of the maximal runs of a line, taken off its end one by one. */
  function LineScore(s: Line): nat {
    if s == [] then 0 else LineScore(s[..|s| - LastRun(s)]) + RunScore(LastRun(s))
  }

  lemma RunUnfold(s: Line)
    requires |s| > 1
    ensures LastRun(s) == if s[|s| - 2] != s[|s| - 1] then 1 else 1 + LastRun(s[..|s| - 1])
  {}

  lemma LineUnfold(s: Line)
    requires s != []
    ensures LineScore(s) == LineScore(s[..|s| - LastRun(s)]) + RunScore(LastRun(s))
  {}

  /** One more module: the last run grows, or a new one begins. */
  lemma NextModule(s: Line, c: nat)
    requires 0 < c < |s|
    ensures var last, next := LastRun(s[..c]), LastRun(s[..c + 1]);
      if s[c] == s[c - 1] then
        next == last + 1 && LineScore(s[..c + 1]) + RunScore(last) == LineScore(s[..c]) + RunScore(last + 1)
      else next == 1 && LineScore(s[..c + 1]) == LineScore(s[..c])
  {
    hide LineScore, LastRun;
    var before, after := s[..c], s[..c + 1];
    assert after[..c] == before;
    RunUnfold(after);
    LineUnfold(before);
    LineUnfold(after);
    if s[c] == s[c - 1] {
      assert before[..c - LastRun(before)] == after[..c + 1 - LastRun(after)];
    }
  }

  lemma FirstModule(s: Line)
    requires s != []
    ensures LastRun(s[..1]) == 1 && LineScore(s[..1]) == 0
  {
    LineUnfold(s[..1]);
    assert s[..1][..0] == [];
  }

  lemma RunGrows(run: nat)
    ensures RunScore(run + 1) == RunScore(run) + if run + 1 == 5 then 3 else if run + 1 > 5 then 1 else 0
  {}

  method ScoreLine(s: Line, start: nat) returns (score: nat)
    requires s != []
    ensures score == start + LineScore(s)
  {
    hide LineScore, LastRun, RunScore;
    score := start;
    var run := 1;
    FirstModule(s);
    for c := 1 to |s|
      invariant run == LastRun(s[..c]) && score == start + LineScore(s[..c])
    {
      NextModule(s, c);
      RunGrows(run);
      if s[c] == s[c - 1] {
        run := run + 1;
        if run == 5 {
          score := score + 3;
        } else if run > 5 {
          score := score + 1;
        }
      } else {
        run := 1;
      }
    }
    assert s[..|s|] == s;
  }

  function Row(g: Grid, r: nat): Line
    requires r < |g|
  {
    g[r]
  }

  function Column(g: Grid, c: nat): (s: Line)
    requires forall r :: 0 <= r < |g| ==> c < |g[r]|
    ensures |s| == |g|
  {
    seq(|g|, r requires 0 <= r < |g| => g[r][c])
  }

  function RowScores(g: Grid, n: nat): nat
    requires n <= |g|
  {
    if n == 0 then 0 else RowScores(g, n - 1) + LineScore(Row(g, n - 1))
  }

  function ColumnScores(g: Grid, n: nat): nat
    requires forall r :: 0 <= r < |g| ==> n <= |g[r]|
  {
    if n == 0 then 0 else ColumnScores(g, n - 1) + LineScore(Column(g, n - 1))
  }

  // ---- Places with a property --------------------------------------------------

  /** The places before (r, c), row by row in rows of m, that have the property. */
  function Before(p: (nat, nat) -> bool, m: nat, r: nat, c: nat): set<(nat, nat)> {
    set i: nat, j: nat | i <= r && j < m && (i < r || j < c) && p(i, j) :: (i, j)
  }

  /** All places of n rows of m that have it. */
  function Places(p: (nat, nat) -> bool, n: nat, m: nat): set<(nat, nat)> {
    set i: nat, j: nat | i < n && j < m && p(i, j) :: (i, j)
  }

  lemma NextPlace(p: (nat, nat) -> bool, m: nat, r: nat, c: nat)
    requires c < m
    ensures |Before(p, m, r, c + 1)| == |Before(p, m, r, c)| + if p(r, c) then 1 else 0
  {
    var before, after := Before(p, m, r, c), Before(p, m, r, c + 1);
    if p(r, c) {
      assert after == before + {(r, c)};
    } else {
      assert after == before;
    }
  }

  lemma NextRow(p: (nat, nat) -> bool, m: nat, r: nat)
    ensures Before(p, m, r, m) == Before(p, m, r + 1, 0)
  {}

  lemma AllPlaces(p: (nat, nat) -> bool, n: nat, m: nat)
    ensures Before(p, m, n, 0) == Places(p, n, m)
    ensures Before(p, m, 0, 0) == {}
  {}

  // ---- Rules 2 to 4 ------------------------------------------------------------

  /** The four modules below and right of a place have one colour. */
  function Block(g: Grid): (nat, nat) -> bool {
    (r: nat, c: nat) => r + 1 < |g| && c + 1 < |g[r]| && c + 1 < |g[r + 1]| &&
      g[r][c] == g[r][c + 1] && g[r][c] == g[r + 1][c] && g[r][c] == g[r + 1][c + 1]
  }

  const PATTERN1: Line := [true, false, true, true, true, false, true, false, false, false, false]
  const PATTERN2: Line := [false, false, false, false, true, false, true, true, true, false, true]

  predicate FinderLike(s: Line) {
    s == PATTERN1 || s == PATTERN2
  }

  function RowSegment(g: Grid, r: nat, c: nat): Line
    requires r < |g| && c + 11 <= |g[r]|
  {
    g[r][c..c + 11]
  }

  function ColumnSegment(g: Grid, r: nat, c: nat): Line
    requires c + 11 <= |g| && forall i :: 0 <= i < |g| ==> r < |g[i]|
  {
    seq(11, i requires 0 <= i < 11 => g[c + i][r])
  }

  function RowPattern(g: Grid, n: nat): (nat, nat) -> bool
    requires Square(g, n)
  {
    (r: nat, c: nat) => r < n && c + 11 <= n && FinderLike(RowSegment(g, r, c))
  }

  function ColumnPattern(g: Grid, n: nat): (nat, nat) -> bool
    requires Square(g, n)
  {
    (r: nat, c: nat) => r < n && c + 11 <= n && FinderLike(ColumnSegment(g, r, c))
  }

  function Dark(g: Grid, n: nat): (nat, nat) -> bool
    requires Square(g, n)
  {
    (r: nat, c: nat) => r < n && c < n && g[r][c]
  }

  function Quotient(x: nat, y: nat): nat {
    if y == 0 then 0 else x / y
  }

  /** Whole steps of five percent between the share of dark modules and one half. */
  function ProportionSteps(dark: nat, n: nat): nat {
    var area := n * n;
    Quotient(Abs(100 * dark - 50 * area), 5 * Abs(area))
  }

  function Minus(n: nat, k: nat): nat {
    if n < k then 0 else n - k
  }

  /** The score of a symbol: runs of five or more in rows and columns, one-coloured blocks of four,
      finder-like patterns in rows and columns, and the proportion of dark modules. */
  function Score(g: Grid, n: nat): nat
    requires Square(g, n) && n > 0
  {
    RowScores(g, n) + ColumnScores(g, n) +
    3 * |Places(Block(g), n - 1, n - 1)| +
    40 * |Places(RowPattern(g, n), n, Minus(n, 10))| + 40 * |Places(ColumnPattern(g, n), n, Minus(n, 10))| +
    10 * ProportionSteps(|Places(Dark(g, n), n, n)|, n)
  }

  method ScoreRuns(g: Grid, n: nat) returns (score: nat)
    requires Square(g, n) && n > 0
    ensures score == RowScores(g, n) + ColumnScores(g, n)
  {
    hide LineScore;
    score := 0;
    for r := 0 to n
      invariant score == RowScores(g, r)
    {
      score := ScoreLine(Row(g, r), score);
    }
    for c := 0 to n
      invariant score == RowScores(g, n) + ColumnScores(g, c)
    {
      score := ScoreLine(Column(g, c), score);
    }
  }

  method ScoreBlocks(g: Grid, n: nat, start: nat) returns (score: nat)
    requires Square(g, n) && n > 0
    ensures score == start + 3 * |Places(Block(g), n - 1, n - 1)|
  {
    hide Before, Places;
    score := start;
    var p := Block(g);
    AllPlaces(p, 0, n - 1);
    for r := 0 to n - 1
      invariant score == start + 3 * |Before(p, n - 1, r, 0)|
    {
      for c := 0 to n - 1
        invariant score == start + 3 * |Before(p, n - 1, r, c)|
      {
        NextPlace(p, n - 1, r, c);
        var v := g[r][c];
        if v == g[r][c + 1] && v == g[r + 1][c] && v == g[r + 1][c + 1] {
          score := score + 3;
        }
      }
      NextRow(p, n - 1, r);
    }
    AllPlaces(p, n - 1, n - 1);
  }

  method Matches(arr: Line, pat: Line) returns (same: bool)
    requires |arr| == |pat|
    ensures same == (arr == pat)
  {
    for k := 0 to |pat|
      invariant arr[..k] == pat[..k]
    {
      if arr[k] != pat[k] {
        return false;
      }
    }
    assert arr[..|pat|] == arr && pat[..|pat|] == pat;
    return true;
  }

  method Segments(g: Grid, n: nat, r: nat, c: nat) returns (row: Line, col: Line)
    requires Square(g, n) && r < n && c + 11 <= n
    ensures row == RowSegment(g, r, c) && col == ColumnSegment(g, r, c) && |row| == |col| == 11
  {
    row, col := [], [];
    for i := 0 to 11
      invariant row == g[r][c..c + i] && col == ColumnSegment(g, r, c)[..i]
    {
      row := row + [g[r][c + i]];
      col := col + [g[c + i][r]];
    }
  }

  method ScorePatterns(g: Grid, n: nat, start: nat) returns (score: nat)
    requires Square(g, n)
    ensures score == start + 40 * |Places(RowPattern(g, n), n, Minus(n, 10))| + 40 * |Places(ColumnPattern(g, n), n, Minus(n, 10))|
  {
    hide Before, Places, RowSegment, ColumnSegment;
    score := start;
    var m, p, q := Minus(n, 10), RowPattern(g, n), ColumnPattern(g, n);
    AllPlaces(p, 0, m);
    AllPlaces(q, 0, m);
    for r := 0 to n
      invariant score == start + 40 * |Before(p, m, r, 0)| + 40 * |Before(q, m, r, 0)|
    {
      for c := 0 to m
        invariant score == start + 40 * |Before(p, m, r, c)| + 40 * |Before(q, m, r, c)|
      {
        NextPlace(p, m, r, c);
        NextPlace(q, m, r, c);
        var rowSeg, colSeg := Segments(g, n, r, c);
        var first := Matches(rowSeg, PATTERN1);
        var second := Matches(rowSeg, PATTERN2);
        if first || second {
          score := score + 40;
        }
        first := Matches(colSeg, PATTERN1);
        second := Matches(colSeg, PATTERN2);
        if first || second {
          score := score + 40;
        }
      }
      NextRow(p, m, r);
      NextRow(q, m, r);
    }
    AllPlaces(p, n, m);
    AllPlaces(q, n, m);
  }

  method CountDark(g: Grid, n: nat) returns (dark: nat)
    requires Square(g, n)
    ensures dark == |Places(Dark(g, n), n, n)|
  {
    hide Before, Places;
    dark := 0;
    var p := Dark(g, n);
    AllPlaces(p, 0, n);
    for r := 0 to n
      invariant dark == |Before(p, n, r, 0)|
    {
      for c := 0 to n
        invariant dark == |Before(p, n, r, c)|
      {
        NextPlace(p, n, r, c);
        if g[r][c] {
          dark := dark + 1;
        }
      }
      NextRow(p, n, r);
    }
    AllPlaces(p, n, n);
  }

  /** penalty: all four rules one after the other. */
  method ComputePenalty(g: Grid, n: nat) returns (score: nat)
    requires Square(g, n) && n > 0
    ensures score == Score(g, n)
  {
    hide Places, RowScores, ColumnScores, ProportionSteps;
    score := ScoreRuns(g, n);
    score := ScoreBlocks(g, n, score);
    score := ScorePatterns(g, n, score);
    var dark := CountDark(g, n);
    score := score + ProportionSteps(dark, n) * 10;
  }

  // ---- The rules in other words ------------------------------------------------

  /** Five modules of one colour end here. */
  predicate Five(s: Line, k: nat) {
    4 <= k < |s| && forall j :: k - 4 <= j <= k ==> s[j] == s[k]
  }

  /** And they are the first five of their run. */
  predicate First(s: Line, k: nat) {
    Five(s, k) && (k == 4 || s[k - 5] != s[k])
  }

  function FiveEnds(s: Line): set<nat> {
    set k: nat | k < |s| && Five(s, k)
  }

  function FirstFive(s: Line): set<nat> {
    set k: nat | k < |s| && First(s, k)
  }

  lemma LongRunJustWhen(s: Line)
    requires |s| >= 5
    ensures LastRun(s) >= 5 <==> Five(s, |s| - 1)
    ensures LastRun(s) == 5 <==> First(s, |s| - 1)
  {
    LastRunIsMaximal(s);
    hide LastRun;
    var lo := |s| - LastRun(s);
    if lo > |s| - 5 {
      assert s[lo - 1] != s[|s| - 1];
    }
  }

  lemma EndsGrow(s: Line, c: nat)
    requires c < |s|
    ensures FiveEnds(s[..c + 1]) == FiveEnds(s[..c]) + (if Five(s, c) then {c} else {}) && c !in FiveEnds(s[..c])
    ensures FirstFive(s[..c + 1]) == FirstFive(s[..c]) + (if First(s, c) then {c} else {}) && c !in FirstFive(s[..c])
  {
    assert forall k: nat :: k <= c ==> Five(s[..c + 1], k) == Five(s, k) && First(s[..c + 1], k) == First(s, k);
    assert forall k: nat :: k < c ==> Five(s[..c], k) == Five(s, k) && First(s[..c], k) == First(s, k);
  }

  /** Rule 1 by windows: one for every five modules of one colour, and two more where a run reaches five. */
  lemma {:induction false} LineScoreByWindows(s: Line, n: nat)
    requires n <= |s|
    ensures LineScore(s[..n]) == |FiveEnds(s[..n])| + 2 * |FirstFive(s[..n])|
  {
    hide LineScore, LastRun, RunScore, Five, First;
    if n == 0 {
      NoScore();
      assert s[..0] == [];
    } else {
      var c := n - 1;
      LineScoreByWindows(s, c);
      EndsGrow(s, c);
      OneMoreModule(s, c);
    }
  }

  lemma NoScore()
    ensures LineScore([]) == 0 && FiveEnds([]) == {} && FirstFive([]) == {}
  {}

  lemma OneMoreModule(s: Line, c: nat)
    requires c < |s|
    ensures LineScore(s[..c + 1]) == LineScore(s[..c]) + (if Five(s, c) then 1 else 0) + if First(s, c) then 2 else 0
  {
    if c >= 4 {
      LongRunJustWhen(s[..c + 1]);
      assert Five(s[..c + 1], c) == Five(s, c) && First(s[..c + 1], c) == First(s, c);
    }
    if c == 0 {
      FirstModule(s);
      NoScore();
      assert s[..0] == [];
    } else {
      NextModule(s, c);
      hide LineScore, LastRun;
      RunGrows(LastRun(s[..c]));
    }
  }

  /** Rule 3: the modules across a finder pattern, 1:1:3:1:1, with four light ones on one side. */
  lemma FinderLikeMeans(s: Line)
    ensures FinderLike(s) <==> (|s| == 11 &&
      ((forall i :: 0 <= i < 11 ==> (s[i] <==> i < 7 && Abs(i - 3) in {0, 1, 3})) ||
       (forall i :: 0 <= i < 11 ==> (s[i] <==> i > 3 && Abs(i - 7) in {0, 1, 3}))))
  {
  }

  /** Rule 4: k steps when the share of dark modules is k times five percent or more from one half, but not k + 1. */
  lemma ProportionBand(dark: nat, n: nat)
    requires n > 0
    ensures var k, area, away := ProportionSteps(dark, n), n * n, Abs(100 * dark - 50 * (n * n));
      5 * area * k <= away < 5 * area * (k + 1)
  {
    var area, away := n * n, Abs(100 * dark - 50 * (n * n));
    assert area > 0;
    Division(away, 5 * area);
  }

  lemma Division(x: nat, d: nat)
    requires d > 0
    ensures d * (x / d) <= x < d * (x / d + 1)
  {}

  // ---- A symbol of stripes ---------------------------------------------------------

  function Striped(s: Line): (g: Grid)
    ensures Square(g, |s|)
  {
    seq(|s|, _ => s)
  }

  function Marked(q: nat -> bool, m: nat): set<nat> {
    set j: nat | j < m && q(j)
  }

  lemma NextMarked(q: nat -> bool, c: nat)
    ensures |Marked(q, c + 1)| == |Marked(q, c)| + if q(c) then 1 else 0
    ensures Marked(q, 0) == {}
  {
    if q(c) {
      assert Marked(q, c + 1) == Marked(q, c) + {c};
    } else {
      assert Marked(q, c + 1) == Marked(q, c);
    }
  }

  ghost predicate ByColumn(p: (nat, nat) -> bool, q: nat -> bool, n: nat, m: nat) {
    forall i: nat, j: nat :: i < n && j < m ==> p(i, j) == q(j)
  }

  lemma {:induction false} BeforeByColumn(p: (nat, nat) -> bool, q: nat -> bool, n: nat, m: nat, r: nat, c: nat)
    requires ByColumn(p, q, n, m) && c <= m && (r < n || (r == n && c == 0))
    ensures |Before(p, m, r, c)| == r * |Marked(q, m)| + |Marked(q, c)|
    decreases r, c
  {
    hide Before, Marked;
    NextMarked(q, if c > 0 then c - 1 else 0);
    if c > 0 {
      BeforeByColumn(p, q, n, m, r, c - 1);
      NextPlace(p, m, r, c - 1);
    } else if r > 0 {
      BeforeByColumn(p, q, n, m, r - 1, m);
      NextRow(p, m, r - 1);
      assert (r - 1) * |Marked(q, m)| + |Marked(q, m)| == r * |Marked(q, m)|;
    } else {
      AllPlaces(p, 0, m);
    }
  }

  /** Places that depend on their column only. */
  lemma SameInEveryRow(p: (nat, nat) -> bool, q: nat -> bool, n: nat, m: nat)
    requires ByColumn(p, q, n, m)
    ensures |Places(p, n, m)| == n * |Marked(q, m)|
  {
    hide Before, Marked, Places;
    BeforeByColumn(p, q, n, m, n, 0);
    AllPlaces(p, n, m);
    NextMarked(q, 0);
  }

  lemma {:induction false} OneRun(s: Line, k: nat)
    requires 0 < k <= |s| && forall i :: 0 <= i < |s| ==> s[i] == s[0]
    ensures LastRun(s[..k]) == k && LineScore(s[..k]) == RunScore(k)
  {
    LastRunIsMaximal(s[..k]);
    LineUnfold(s[..k]);
    assert s[..k][..0] == [];
    NoScore();
  }

  lemma {:induction false} AllRowsScore(s: Line, k: nat)
    requires k <= |s|
    ensures RowScores(Striped(s), k) == k * LineScore(s)
  {
    hide LineScore;
    if k > 0 {
      AllRowsScore(s, k - 1);
      assert (k - 1) * LineScore(s) + LineScore(s) == k * LineScore(s);
    }
  }

  lemma {:induction false} AllColumnsScore(s: Line, k: nat)
    requires k <= |s| && |s| >= 5
    ensures ColumnScores(Striped(s), k) == k * (|s| - 2)
  {
    hide LineScore, LastRun;
    if k > 0 {
      AllColumnsScore(s, k - 1);
      var col := Column(Striped(s), k - 1);
      OneRun(col, |s|);
      assert col[..|s|] == col;
      assert (k - 1) * (|s| - 2) + (|s| - 2) == k * (|s| - 2);
    }
  }

  lemma NoColumnPatterns(s: Line)
    ensures Places(ColumnPattern(Striped(s), |s|), |s|, Minus(|s|, 10)) == {}
  {
    forall r: nat, c: nat | r < |s| && c < Minus(|s|, 10) ensures !ColumnPattern(Striped(s), |s|)(r, c) {
      if c + 11 <= |s| {
        var seg := ColumnSegment(Striped(s), r, c);
        assert seg[0] == seg[1] == seg[4] == seg[6];
      }
    }
  }

  function Neighbours(s: Line): nat -> bool {
    (j: nat) => j + 1 < |s| && s[j] == s[j + 1]
  }

  function Finders(s: Line): nat -> bool {
    (j: nat) => j + 11 <= |s| && FinderLike(s[j..j + 11])
  }

  function Darks(s: Line): nat -> bool {
    (j: nat) => j < |s| && s[j]
  }

  lemma StripesByColumn(s: Line)
    requires |s| >= 11
    ensures ByColumn(Block(Striped(s)), Neighbours(s), |s| - 1, |s| - 1)
    ensures ByColumn(RowPattern(Striped(s), |s|), Finders(s), |s|, |s| - 10)
    ensures ByColumn(Dark(Striped(s), |s|), Darks(s), |s|, |s|)
  {
    hide FinderLike;
  }

  lemma ScoreIsSum(g: Grid, n: nat, runs: nat, blocks: nat, patterns: nat, dark: nat)
    requires Square(g, n) && n > 0 && RowScores(g, n) + ColumnScores(g, n) == runs && |Places(Block(g), n - 1, n - 1)| == blocks
    requires |Places(RowPattern(g, n), n, Minus(n, 10))| == patterns && Places(ColumnPattern(g, n), n, Minus(n, 10)) == {}
    requires |Places(Dark(g, n), n, n)| == dark
    ensures Score(g, n) == runs + 3 * blocks + 40 * patterns + 10 * ProportionSteps(dark, n)
  {
    hide RowScores, ColumnScores, Places, Block, RowPattern, ColumnPattern, Dark, ProportionSteps;
  }

  /** The whole score of a symbol whose rows are all the same line: its runs and those of the columns, three for every
      two neighbours of one colour and pair of rows, forty for every finder-like stretch and row, and ten for every five
      percent that the dark modules are off one half. */
  lemma StripedScore(s: Line)
    requires |s| >= 11
    ensures var n := |s|;
      var runs := n * LineScore(s) + n * (n - 2);
      var blocks, patterns := (n - 1) * |Marked(Neighbours(s), n - 1)|, n * |Marked(Finders(s), n - 10)|;
      Score(Striped(s), n) == runs + 3 * blocks + 40 * patterns + 10 * ProportionSteps(n * |Marked(Darks(s), n)|, n)
  {
    hide *;
    var g, n := Striped(s), |s|;
    NoColumnPatterns(s);
    StripesByColumn(s);
    AllRowsScore(s, n);
    AllColumnsScore(s, n);
    SameInEveryRow(Block(g), Neighbours(s), n - 1, n - 1);
    SameInEveryRow(RowPattern(g, n), Finders(s), n, n - 10);
    SameInEveryRow(Dark(g, n), Darks(s), n, n);
    TenLess(n);
    ScoreIsSum(g, n, n * LineScore(s) + n * (n - 2), (n - 1) * |Marked(Neighbours(s), n - 1)|, n * |Marked(Finders(s), n - 10)|,
      n * |Marked(Darks(s), n)|);
  }

  lemma TenLess(n: nat)
    requires n >= 11
    ensures Minus(n, 10) == n - 10
  {}

  // ---- Rows and columns count alike ------------------------------------------------

  function Turned(g: Grid, n: nat): (t: Grid)
    requires Square(g, n)
    ensures Square(t, n) && forall r, c :: 0 <= r < n && 0 <= c < n ==> t[r][c] == g[c][r]
  {
    seq(n, r requires 0 <= r < n => seq(n, c requires 0 <= c < n => g[c][r]))
  }

  function Swapped(places: set<(nat, nat)>): (swapped: set<(nat, nat)>)
    ensures forall i, j :: (i, j) in swapped <==> (j, i) in places
  {
    set p | p in places :: (p.1, p.0)
  }

  lemma {:induction false} SwappedSize(places: set<(nat, nat)>)
    ensures |Swapped(places)| == |places|
  {
    if places != {} {
      var p :| p in places;
      SwappedSize(places - {p});
      assert Swapped(places) == Swapped(places - {p}) + {(p.1, p.0)};
      assert (p.1, p.0) !in Swapped(places - {p});
    }
  }

  lemma SwappedPlaces(p: (nat, nat) -> bool, q: (nat, nat) -> bool, n: nat)
    requires forall i: nat, j: nat :: i < n && j < n ==> p(i, j) == q(j, i)
    ensures |Places(p, n, n)| == |Places(q, n, n)|
  {
    assert Swapped(Places(p, n, n)) == Places(q, n, n);
    SwappedSize(Places(p, n, n));
  }

  lemma {:induction false} TurnedLines(g: Grid, n: nat, k: nat)
    requires Square(g, n) && k <= n
    ensures RowScores(Turned(g, n), k) == ColumnScores(g, k) && ColumnScores(Turned(g, n), k) == RowScores(g, k)
  {
    hide LineScore;
    if k > 0 {
      TurnedLines(g, n, k - 1);
      assert Row(Turned(g, n), k - 1) == Column(g, k - 1) && Column(Turned(g, n), k - 1) == Row(g, k - 1);
    }
  }

  lemma TurnedPatterns(g: Grid, n: nat)
    requires Square(g, n)
    ensures Places(RowPattern(Turned(g, n), n), n, Minus(n, 10)) == Places(ColumnPattern(g, n), n, Minus(n, 10))
    ensures Places(ColumnPattern(Turned(g, n), n), n, Minus(n, 10)) == Places(RowPattern(g, n), n, Minus(n, 10))
  {
    hide FinderLike;
    var t := Turned(g, n);
    forall r: nat, c: nat | r < n && c + 11 <= n
      ensures RowSegment(t, r, c) == ColumnSegment(g, r, c) && ColumnSegment(t, r, c) == RowSegment(g, r, c)
    {
      var a, b := RowSegment(t, r, c), ColumnSegment(t, r, c);
      assert |a| == 11 && forall i :: 0 <= i < 11 ==> a[i] == t[r][c + i] == g[c + i][r];
      assert |b| == 11 && forall i :: 0 <= i < 11 ==> b[i] == t[c + i][r] == g[r][c + i];
    }
  }

  lemma TurnedBlocks(g: Grid, n: nat)
    requires Square(g, n) && n > 0
    ensures |Places(Block(Turned(g, n)), n - 1, n - 1)| == |Places(Block(g), n - 1, n - 1)|
    ensures |Places(Dark(Turned(g, n), n), n, n)| == |Places(Dark(g, n), n, n)|
  {
    hide Places;
    SwappedPlaces(Block(Turned(g, n)), Block(g), n - 1);
    SwappedPlaces(Dark(Turned(g, n), n), Dark(g, n), n);
  }

  /** A symbol and its mirror image about the diagonal score the same. */
  lemma TurnedScore(g: Grid, n: nat)
    requires Square(g, n) && n > 0
    ensures Score(Turned(g, n), n) == Score(g, n)
  {
    hide RowScores, ColumnScores, Places, Block, RowPattern, ColumnPattern, Dark, ProportionSteps, Turned;
    TurnedLines(g, n, n);
    TurnedPatterns(g, n);
    TurnedBlocks(g, n);
  }
}
