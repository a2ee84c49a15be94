/** The BCH codes of the format and version information (sections 7.9 and 7.10 of
    ISO/IEC 18004:2015), on words written most significant bit first. */
module Bch {
  import opened Bits
  import opened Sets

  function Clear(n: nat): (s: seq<bool>)
    ensures |s| == n && forall i :: 0 <= i < n ==> !s[i]
  {
    seq(n, _ => false)
  }

  function XorBits(a: seq<bool>, b: seq<bool>): (r: seq<bool>)
    requires |a| == |b|
    ensures |r| == |a| && forall i :: 0 <= i < |a| ==> (r[i] <==> a[i] != b[i])
  {
    seq(|a|, i requires 0 <= i < |a| => a[i] != b[i])
  }

  function OrBits(a: seq<bool>, b: seq<bool>): (r: seq<bool>)
    requires |a| == |b|
    ensures |r| == |a| && forall i :: 0 <= i < |a| ==> (r[i] <==> a[i] || b[i])
  {
    seq(|a|, i requires 0 <= i < |a| => a[i] || b[i])
  }

  /** d xor g, with the leading bit of g at place p. */
  function XorAt(d: seq<bool>, g: seq<bool>, p: nat): (r: seq<bool>)
    requires p + |g| <= |d|
    ensures |r| == |d|
    ensures forall i :: 0 <= i < |d| ==> (r[i] <==> d[i] != (p <= i < p + |g| && g[i - p]))
  {
    seq(|d|, i requires 0 <= i < |d| => d[i] != (p <= i < p + |g| && g[i - p]))
  }

  predicate Divisor(g: seq<bool>) {
    |g| > 0 && g[0]
  }

  /** Long division, places 0 .. k-1 of d cleared in turn. */
  function Reduce(d: seq<bool>, g: seq<bool>, k: nat): (r: seq<bool>)
    requires Divisor(g) && k + |g| <= |d| + 1
    ensures |r| == |d| && forall i :: 0 <= i < k ==> !r[i]
    decreases k
  {
    if k == 0 then d
    else
      var e := Reduce(d, g, k - 1);
      if e[k - 1] then XorAt(e, g, k - 1) else e
  }

  /** The check bits of a data word. */
  function Remainder(data: seq<bool>, g: seq<bool>): (r: seq<bool>)
    requires Divisor(g)
    ensures |r| == |g| - 1
  {
    Reduce(data + Clear(|g| - 1), g, |data|)[|data|..]
  }

  function Word(data: seq<bool>, g: seq<bool>): (w: seq<bool>)
    requires Divisor(g)
    ensures |w| == |data| + |g| - 1 && w[..|data|] == data
  {
    data + Remainder(data, g)
  }

  /** bchFormat and bchVersion up to the final mask: the loop clears the top bits of the shifted
      value, what is left joins the value by a bitwise or. */
  method BchWord(data: seq<bool>, g: seq<bool>) returns (word: seq<bool>)
    requires Divisor(g)
    ensures word == Word(data, g)
  {
    var shifted := data + Clear(|g| - 1);
    var d := shifted;
    for p := 0 to |data|
      invariant d == Reduce(shifted, g, p)
    {
      if d[p] { d := XorAt(d, g, p); }
    }
    word := OrBits(shifted, d);
  }

  /** Low bits pass through the division: they never decide a step. */
  lemma {:induction false} LowBitsPass(data: seq<bool>, low: seq<bool>, g: seq<bool>, k: nat)
    requires Divisor(g) && |low| == |g| - 1 && k <= |data|
    ensures Reduce(data + low, g, k)
         == XorBits(Reduce(data + Clear(|low|), g, k), Clear(|data|) + low)
    decreases k
  {
    if k > 0 { LowBitsPass(data, low, g, k - 1); }
  }

  /** Every word is a multiple of the generator: dividing it leaves nothing. */
  lemma WordDivides(data: seq<bool>, g: seq<bool>)
    requires Divisor(g)
    ensures Reduce(Word(data, g), g, |data|) == Clear(|Word(data, g)|)
  {
    LowBitsPass(data, Remainder(data, g), g, |data|);
  }

  // ---- Format and version words ------------------------------------------

  const FORMAT_GENERATOR: seq<bool> := [true, false, true, false, false, true, true, false, true, true, true]
  const FORMAT_MASK: seq<bool> := [true, false, true, false, true, false, false, false, false, false, true, false, false, true, false]
  const VERSION_GENERATOR: seq<bool> := [true, true, true, true, true, false, false, true, false, false, true, false, true]

  /** Error correction level L is 01; three bits of mask number follow. */
  function FormatData(mask: nat): (s: seq<bool>)
    ensures |s| == 5
  {
    [false, true] + NatBits(mask, 3)
  }

  function FormatWord(mask: nat): (w: seq<bool>)
    ensures |w| == 15
  {
    XorBits(Word(FormatData(mask), FORMAT_GENERATOR), FORMAT_MASK)
  }

  function VersionWord(v: nat): (w: seq<bool>)
    ensures |w| == 18
  {
    Word(NatBits(v, 6), VERSION_GENERATOR)
  }

  /** What a reader makes of the fifteen format bits; -1 unless the level is L. */
  function MaskOf(word: seq<bool>): int
    requires |word| == 15
  {
    var data := XorBits(word, FORMAT_MASK)[..5];
    if data[..2] == [false, true] then BitsNat(data[2..]) else -1
  }

  lemma MaskOfFormatWord(mask: nat)
    requires mask < 8
    ensures MaskOf(FormatWord(mask)) == mask
  {
    hide Reduce;
    assert Pow2(3) == 8;
    NatRoundTrip(mask, 3);
    var w := Word(FormatData(mask), FORMAT_GENERATOR);
    assert XorBits(FormatWord(mask), FORMAT_MASK) == w;
    assert w[..5][2..] == NatBits(mask, 3);
  }

  // ---- Damaged format words ------------------------------------------------

  /** The places where two words differ. */
  function Differing(a: seq<bool>, b: seq<bool>): (places: set<nat>)
    requires |a| == |b|
  {
    set i: nat | i < |a| && a[i] != b[i]
  }

  lemma DifferThrough(a: seq<bool>, b: seq<bool>, c: seq<bool>)
    requires |a| == |b| == |c|
    ensures |Differing(a, c)| <= |Differing(a, b)| + |Differing(b, c)|
  {
    SubsetSize(Differing(a, c), Differing(a, b) + Differing(b, c));
  }

  /** The code is linear: division goes through xor. */
  lemma {:induction false} ReduceLinear(a: seq<bool>, b: seq<bool>, g: seq<bool>, k: nat)
    requires Divisor(g) && |a| == |b| && k + |g| <= |a| + 1
    ensures Reduce(XorBits(a, b), g, k) == XorBits(Reduce(a, g, k), Reduce(b, g, k))
    decreases k
  {
    if k > 0 { ReduceLinear(a, b, g, k - 1); }
  }

  lemma WordLinear(a: seq<bool>, b: seq<bool>, g: seq<bool>)
    requires Divisor(g) && |a| == |b|
    ensures Word(XorBits(a, b), g) == XorBits(Word(a, g), Word(b, g))
  {
    hide Reduce;
    var zeros := Clear(|g| - 1);
    ReduceLinear(a + zeros, b + zeros, g, |a|);
    assert XorBits(a + zeros, b + zeros) == XorBits(a, b) + zeros;
  }

  /** The generator with its leading bit at place p, as a word of n data bits. */
  function Shifted(g: seq<bool>, p: nat, n: nat): (w: seq<bool>)
    requires p < n && |g| > 0
    ensures |w| == n + |g| - 1
  {
    Clear(p) + g + Clear(n - 1 - p)
  }

  lemma {:induction false} ShiftedReduces(g: seq<bool>, p: nat, n: nat, k: nat)
    requires Divisor(g) && p < n && k <= n
    ensures Reduce(Shifted(g, p, n), g, k) == if k <= p then Shifted(g, p, n) else Clear(n + |g| - 1)
    decreases k
  {
    if k > 0 { ShiftedReduces(g, p, n, k - 1); }
  }

  /** A generator moved to the left is a word of the code. */
  lemma ShiftedIsWord(g: seq<bool>, p: nat, n: nat)
    requires Divisor(g) && p < n
    ensures Word(Shifted(g, p, n)[..n], g) == Shifted(g, p, n)
  {
    hide Reduce;
    var w := Shifted(g, p, n);
    var low := w[n..];
    assert w[..n] + low == w;
    ShiftedReduces(g, p, n, n);
    LowBitsPass(w[..n], low, g, n);
    var r := Reduce(w[..n] + Clear(|low|), g, n);
    forall i | 0 <= i < |low| ensures r[n..][i] == low[i] {
      assert XorBits(r, Clear(n) + low)[n + i] == Clear(|w|)[n + i];
    }
  }

  function Term(on: bool, p: nat): (w: seq<bool>)
    requires p < 5
    ensures |w| == 15
  {
    if on then Shifted(FORMAT_GENERATOR, p, 5) else Clear(15)
  }

  lemma TermIsWord(on: bool, p: nat)
    requires p < 5
    ensures Word(Term(on, p)[..5], FORMAT_GENERATOR) == Term(on, p)
  {
    hide Word, Shifted;
    ShiftedIsWord(FORMAT_GENERATOR, p, 5);
    ClearIsWord(FORMAT_GENERATOR, 5);
    assert Clear(15)[..5] == Clear(5);
  }

  lemma ClearIsWord(g: seq<bool>, n: nat)
    requires Divisor(g)
    ensures Word(Clear(n), g) == Clear(n + |g| - 1)
  {
    hide Reduce;
    var none := Clear(n);
    WordLinear(none, none, g);
    assert XorBits(none, none) == none;
    var w := Word(none, g);
    assert XorBits(w, w) == w;
    forall i | 0 <= i < |w| ensures !w[i] {
      assert w[i] == (w[i] != w[i]);
    }
  }

  /** The word of the last three data bits. */
  function LowWord(x: bool, y: bool, z: bool): (w: seq<bool>)
    ensures |w| == 15
  {
    XorBits(XorBits(Term(x, 2), Term(y, 3)), Term(x != z, 4))
  }

  lemma LowWordBits(x: bool, y: bool, z: bool)
    ensures var w := LowWord(x, y, z);
      !w[0] && !w[1] && w[2] == x && w[3] == y && w[4] == z && w[5] == y && w[6] == (x != z) && w[7] == x &&
      w[8] == (x != y) && w[9] == ((x != y) != z) && w[10] == z && w[11] == (x != y) && w[12] == (y != z) &&
      w[13] == ((x != y) != z) && w[14] == (x != z)
  {
    hide Term, FORMAT_GENERATOR;
    TermBits(x, 2);
    TermBits(y, 3);
    TermBits(x != z, 4);
  }

  lemma LowWordData(x: bool, y: bool, z: bool)
    ensures LowWord(x, y, z)[..5] == [false, false, x, y, z]
  {
    hide LowWord;
    LowWordBits(x, y, z);
  }

  lemma TermBits(on: bool, p: nat)
    requires p < 5
    ensures Term(on, p)[p] == Term(on, p)[p + 2] == Term(on, p)[p + 5] == Term(on, p)[p + 6] == on
    ensures Term(on, p)[p + 8] == Term(on, p)[p + 9] == Term(on, p)[p + 10] == on
    ensures !Term(on, p)[p + 1] && !Term(on, p)[p + 3] && !Term(on, p)[p + 4] && !Term(on, p)[p + 7]
    ensures forall i :: 0 <= i < p || p + 11 <= i < 15 ==> !Term(on, p)[i]
  {
  }

  lemma LowWordIsWord(x: bool, y: bool, z: bool)
    ensures Word([false, false, x, y, z], FORMAT_GENERATOR) == LowWord(x, y, z)
  {
    var (a, b, c) := (Term(x, 2), Term(y, 3), Term(x != z, 4));
    hide Term, Word;
    LowWordData(x, y, z);
    assert XorBits(XorBits(a[..5], b[..5]), c[..5]) == LowWord(x, y, z)[..5];
    TermIsWord(x, 2);
    TermIsWord(y, 3);
    TermIsWord(x != z, 4);
    WordLinear(a[..5], b[..5], FORMAT_GENERATOR);
    WordLinear(XorBits(a[..5], b[..5]), c[..5], FORMAT_GENERATOR);
  }

  /** Seven of its places that are set. */
  function SetPlaces(x: bool, y: bool, z: bool): (places: seq<nat>)
    ensures |places| == 7 && forall i, j :: 0 <= i < j < 7 ==> places[i] < places[j]
  {
    if !x && !y && z then [4, 6, 9, 10, 12, 13, 14]
    else if !x && y && !z then [3, 5, 8, 9, 11, 12, 13]
    else if !x && y && z then [3, 4, 5, 6, 8, 10, 11]
    else if x && !y && !z then [2, 6, 7, 8, 9, 11, 13]
    else if x && !y && z then [2, 4, 7, 8, 10, 11, 12]
    else if x && y && !z then [2, 3, 5, 6, 7, 12, 14]
    else [2, 3, 4, 5, 7, 9, 10]
  }

  lemma PlacesAreSet(x: bool, y: bool, z: bool, i: nat)
    requires (x || y || z) && i in SetPlaces(x, y, z)
    ensures i < 15 && LowWord(x, y, z)[i]
  {
    hide LowWord;
    LowWordBits(x, y, z);
  }

  lemma {:induction false} ManyPlaces(places: seq<nat>, within: set<nat>)
    requires forall i, j :: 0 <= i < j < |places| ==> places[i] < places[j]
    requires forall i :: 0 <= i < |places| ==> places[i] in within
    ensures |places| <= |within|
  {
    if places != [] {
      ManyPlaces(places[1..], within - {places[0]});
    }
  }

  lemma DifferLikeWord(mask: nat, mask': nat, x: bool, y: bool, z: bool)
    requires XorBits(FormatData(mask), FormatData(mask')) == [false, false, x, y, z]
    ensures forall i: nat :: i < 15 && LowWord(x, y, z)[i] ==> i in Differing(FormatWord(mask), FormatWord(mask'))
  {
    hide Word, LowWord, FORMAT_MASK, FormatData;
    WordLinear(FormatData(mask), FormatData(mask'), FORMAT_GENERATOR);
    LowWordIsWord(x, y, z);
  }

  /** The format words of two masks differ in at least seven places. */
  lemma FormatWordsApart(mask: nat, mask': nat)
    requires mask < 8 && mask' < 8 && mask != mask'
    ensures |Differing(FormatWord(mask), FormatWord(mask'))| >= 7
  {
    var a, b := FormatData(mask), FormatData(mask');
    var x, y, z := a[2] != b[2], a[3] != b[3], a[4] != b[4];
    assert XorBits(a, b) == [false, false, x, y, z];
    assert x || y || z by {
      hide FormatWord;
      if !x && !y && !z {
        assert a == b;
        SameWord(mask, mask');
      }
    }
    hide *;
    DifferLikeWord(mask, mask', x, y, z);
    forall i | i in SetPlaces(x, y, z) ensures i in Differing(FormatWord(mask), FormatWord(mask')) {
      PlacesAreSet(x, y, z, i);
    }
    ManyPlaces(SetPlaces(x, y, z), Differing(FormatWord(mask), FormatWord(mask')));
  }

  lemma SameWord(mask: nat, mask': nat)
    requires mask < 8 && mask' < 8 && FormatData(mask) == FormatData(mask')
    ensures mask == mask'
  {
    assert FormatWord(mask) == FormatWord(mask');
    hide FormatWord;
    MaskOfFormatWord(mask);
    MaskOfFormatWord(mask');
  }

  /** So a reader can tell them apart with up to three of the fifteen bits damaged. */
  lemma FormatSurvives(read: seq<bool>, mask: nat, mask': nat)
    requires |read| == 15 && mask < 8 && mask' < 8
    requires |Differing(FormatWord(mask), read)| <= 3 && |Differing(FormatWord(mask'), read)| <= 3
    ensures mask == mask'
  {
    hide FormatWord, Differing;
    if mask != mask' {
      FormatWordsApart(mask, mask');
      DifferThrough(FormatWord(mask), read, FormatWord(mask'));
      DifferSwap(read, FormatWord(mask'));
      assert false;
    }
  }

  lemma DifferSwap(a: seq<bool>, b: seq<bool>)
    requires |a| == |b|
    ensures Differing(a, b) == Differing(b, a)
  {
  }

  // ---- The words themselves ------------------------------------------------

  /** Table C.1 of ISO/IEC 18004:2015, the words of level L. */
  const FORMAT_WORDS: seq<string> := [
    "111011111000100", "111001011110011",
    "111110110101010", "111100010011101",
    "110011000101111", "110001100011000",
    "110110001000001", "110100101110110"
  ]

  /** The word of level L and a mask, from the generator at its place 1 and the word of the low bits. */
  lemma LevelWord(x: bool, y: bool, z: bool)
    ensures Word([false, true, x, y, z], FORMAT_GENERATOR) == XorBits(Term(true, 1), LowWord(x, !y, z))
  {
    var a, b := Term(true, 1), LowWord(x, !y, z);
    LevelBits(x, y, z);
    hide *;
    TermIsWord(true, 1);
    LowWordData(x, !y, z);
    LowWordIsWord(x, !y, z);
    WordLinear(a[..5], b[..5], FORMAT_GENERATOR);
  }

  lemma LevelBits(x: bool, y: bool, z: bool)
    ensures XorBits(Term(true, 1)[..5], LowWord(x, !y, z)[..5]) == [false, true, x, y, z]
  {
    hide Term, LowWord;
    TermBits(true, 1);
    LowWordBits(x, !y, z);
  }

  /** The fifteen bits before the final mask. */
  lemma LevelWordBits(x: bool, y: bool, z: bool)
    ensures var w := Word([false, true, x, y, z], FORMAT_GENERATOR);
      !w[0] && w[1] && w[2] == x && w[3] == y && w[4] == z && w[5] == !y && w[6] == (x == z) && w[7] == !x &&
      w[8] == (x == y) && w[9] == ((x == y) == z) && w[10] == !z && w[11] == (x != y) && w[12] == (y == z) &&
      w[13] == ((x == y) != z) && w[14] == (x != z)
  {
    hide Word, Term, LowWord;
    LevelWord(x, y, z);
    TermBits(true, 1);
    LowWordBits(x, !y, z);
  }

  lemma MaskBits(mask: nat)
    requires mask < 8
    ensures FormatData(mask) == [false, true, mask / 4 == 1, mask / 2 % 2 == 1, mask % 2 == 1]
  {
    assert NatBits(mask / 4, 1) == NatBits(mask / 8, 0) + [mask / 4 % 2 == 1];
    assert NatBits(mask / 2, 2) == NatBits(mask / 4, 1) + [mask / 2 % 2 == 1];
    assert NatBits(mask, 3) == NatBits(mask / 2, 2) + [mask % 2 == 1];
  }

  /** The bits of a word written with zeros and ones. */
  function Written(word: string): (w: seq<bool>)
    ensures |w| == |word| && forall i :: 0 <= i < |word| ==> (w[i] <==> word[i] == '1')
  {
    seq(|word|, i requires 0 <= i < |word| => word[i] == '1')
  }

  lemma MaskedBits(mask: nat)
    requires mask < 8
    ensures var x, y, z := mask / 4 == 1, mask / 2 % 2 == 1, mask % 2 == 1;
      FormatWord(mask) == [true, true, !x, y, !z, !y, x == z, !x, x == y, (x == y) == z, z, x != y, y == z, (x == y) == z, x != z]
  {
    hide Word, FormatData;
    MaskBits(mask);
    LevelWordBits(mask / 4 == 1, mask / 2 % 2 == 1, mask % 2 == 1);
  }

  lemma LowMaskWords(mask: nat)
    requires mask < 4
    ensures FormatWord(mask) == Written(FORMAT_WORDS[mask])
  {
    hide FormatWord;
    MaskedBits(mask);
    match mask
    case 0 =>
    case 1 =>
    case 2 =>
    case 3 =>
  }

  lemma HighMaskWords(mask: nat)
    requires 4 <= mask < 8
    ensures FormatWord(mask) == Written(FORMAT_WORDS[mask])
  {
    hide FormatWord;
    MaskedBits(mask);
    match mask
    case 4 =>
    case 5 =>
    case 6 =>
    case 7 =>
  }

  /** Every format word is the one of the table. */
  lemma FormatWordIs(mask: nat)
    requires mask < 8
    ensures FormatWord(mask) == Written(FORMAT_WORDS[mask])
  {
    hide FormatWord;
    if mask < 4 { LowMaskWords(mask); } else { HighMaskWords(mask); }
  }

  lemma SevenBits()
    ensures NatBits(7, 6) == [false, false, false, true, true, true]
  {
    assert NatBits(0, 1) == [false] && NatBits(0, 2) == [false, false] && NatBits(0, 3) == [false, false, false];
    assert NatBits(1, 4) == NatBits(0, 3) + [true];
    assert NatBits(3, 5) == NatBits(1, 4) + [true];
  }

  lemma SevenShifted()
    ensures Shifted(VERSION_GENERATOR, 3, 6) == Written("000111110010010100")
    ensures Shifted(VERSION_GENERATOR, 3, 6)[..6] == [false, false, false, true, true, true]
  {}

  /** The first word of table D.1, which with WordDivides gives the others. */
  lemma VersionSeven()
    ensures VersionWord(7) == Written("000111110010010100")
  {
    assert Divisor(VERSION_GENERATOR);
    hide Word, Shifted, NatBits, Written, VERSION_GENERATOR;
    ShiftedIsWord(VERSION_GENERATOR, 3, 6);
    SevenShifted();
    SevenBits();
  }
}
