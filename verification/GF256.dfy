/** The field GF(2^8) with the primitive polynomial 0x11d, as the QR encoder builds it:
    a reference multiplication by shift-and-xor, and the EXP/LOG tables that replace it. */
module GF256 {
  import opened Bytes
  import opened Sets

  /** Addition of polynomials over GF(2) is xor. */
  function Add(a: bv8, b: bv8): bv8 {
    a ^ b
  }

  function Shift(x: bv8): bv8 {
    x << 1
  }

  predicate TopBit(x: bv8) {
    x & 0x80 != 0
  }

  /** Multiplication by alpha = 2: shift, then reduce by 0x11d when the top bit falls out. */
  function Double(x: bv8): bv8 {
    if TopBit(x) then Add(Shift(x), 0x1d) else Shift(x)
  }

  /** alpha^n * x */
  function Scale(n: nat, x: bv8): bv8
    decreases n
  {
    if n == 0 then x else Double(Scale(n - 1, x))
  }

  function Alpha(n: nat): bv8 {
    Scale(n, 1)
  }

  function Half(b: bv8): bv8 {
    b >> 1
  }

  /** a when b is odd, else 0 */
  function Low(b: bv8, a: bv8): bv8 {
    if b & 1 == 1 then a else 0
  }

  /** Shift-and-xor multiplication over the low n bits of b. */
  function Peasant(a: bv8, b: bv8, n: nat): bv8
    decreases n
  {
    if n == 0 then 0 else Add(Low(b, a), Peasant(Double(a), Half(b), n - 1))
  }

  /** The field product, independent of any table. */
  function Mul(a: bv8, b: bv8): bv8 {
    Peasant(a, b, 8)
  }

  // ---- Xor ---------------------------------------------------------------

  lemma AddLaws(a: bv8, b: bv8, c: bv8)
    ensures Add(a, b) == Add(b, a)
    ensures Add(Add(a, b), c) == Add(a, Add(b, c))
    ensures Add(a, 0) == a && Add(0, a) == a && Add(a, a) == 0
    ensures Add(a, b) == 0 <==> a == b
  {}

  lemma AddSwap(a: bv8, b: bv8, c: bv8, d: bv8)
    ensures Add(Add(a, b), Add(c, d)) == Add(Add(a, c), Add(b, d))
  {
    hide Add;
    AddLaws(a, b, Add(c, d));
    AddLaws(b, c, d);
    AddLaws(c, b, d);
    AddLaws(a, c, Add(b, d));
  }

  // ---- Linearity ---------------------------------------------------------

  lemma ShiftAdd(x: bv8, y: bv8)
    ensures Shift(Add(x, y)) == Add(Shift(x), Shift(y))
    ensures TopBit(Add(x, y)) <==> TopBit(x) != TopBit(y)
  {}

  lemma DoubleAdd(x: bv8, y: bv8)
    ensures Double(Add(x, y)) == Add(Double(x), Double(y))
  {
    hide Add, Shift, TopBit;
    ShiftAdd(x, y);
    AddSwap(Shift(x), if TopBit(x) then 0x1d else 0, Shift(y), if TopBit(y) then 0x1d else 0);
    AddLaws(Shift(x), 0x1d, 0);
    AddLaws(Shift(y), 0x1d, 0);
    AddLaws(0x1d, 0, 0);
    AddLaws(Add(Shift(x), Shift(y)), 0x1d, 0);
  }

  lemma LowAdd(c: bv8, x: bv8, y: bv8)
    ensures Low(c, Add(x, y)) == Add(Low(c, x), Low(c, y))
    ensures Low(Add(x, y), c) == Add(Low(x, c), Low(y, c))
    ensures Half(Add(x, y)) == Add(Half(x), Half(y))
    ensures Low(c, 0) == 0 && Double(0) == 0
  {}

  lemma LowDouble(c: bv8, x: bv8)
    ensures Low(c, Double(x)) == Double(Low(c, x))
  {}

  lemma {:induction false} PeasantAdd(a: bv8, b: bv8, c: bv8, n: nat)
    ensures Peasant(Add(a, b), c, n) == Add(Peasant(a, c, n), Peasant(b, c, n))
    ensures Peasant(c, Add(a, b), n) == Add(Peasant(c, a, n), Peasant(c, b, n))
    decreases n
  {
    hide Double, Low, Add, Half;
    AddLaws(0, 0, 0);
    if n > 0 {
      DoubleAdd(a, b);
      LowAdd(c, a, b);
      var (a', b', c') := (Double(a), Double(b), Double(c));
      PeasantAdd(a', b', Half(c), n - 1);
      AddSwap(Low(c, a), Low(c, b), Peasant(a', Half(c), n - 1), Peasant(b', Half(c), n - 1));
      PeasantAdd(Half(a), Half(b), c', n - 1);
      AddSwap(Low(a, c), Low(b, c), Peasant(c', Half(a), n - 1), Peasant(c', Half(b), n - 1));
    }
  }

  lemma {:induction false} PeasantDouble(a: bv8, b: bv8, n: nat)
    ensures Peasant(Double(a), b, n) == Double(Peasant(a, b, n))
    ensures Peasant(0, b, n) == 0
    decreases n
  {
    hide Double, Low, Add, Half;
    LowAdd(b, a, 0);
    LowDouble(b, a);
    AddLaws(0, 0, 0);
    if n > 0 {
      PeasantDouble(Double(a), Half(b), n - 1);
      DoubleAdd(Low(b, a), Peasant(Double(a), Half(b), n - 1));
    }
  }

  /** Multiplication distributes over xor on both sides. */
  lemma MulAdd(a: bv8, b: bv8, c: bv8)
    ensures Mul(Add(a, b), c) == Add(Mul(a, c), Mul(b, c))
    ensures Mul(c, Add(a, b)) == Add(Mul(c, a), Mul(c, b))
  {
    hide Peasant, Add;
    PeasantAdd(a, b, c, 8);
  }


  lemma LowNibble(b: bv8)
    ensures Peasant(1, b, 4) == b & 0x0f
  {
    assert Peasant(1, b, 4) == Add(Low(b, 1), Add(Low(b >> 1, 2), Add(Low(b >> 2, 4), Low(b >> 3, 8))));
  }

  lemma HighNibble(b: bv8)
    ensures Peasant(0x10, b >> 4, 4) == b & 0xf0
  {}

  lemma Nibbles(b: bv8)
    ensures Half(Half(Half(Half(b)))) == b >> 4
    ensures Add(b & 0x0f, b & 0xf0) == b
    ensures Scale(4, 1) == 0x10
  {}

  lemma {:induction false} PeasantSplit(a: bv8, b: bv8, m: nat, n: nat, c: bv8)
    requires c == Halves(b, m)
    ensures Peasant(a, b, m + n) == Add(Peasant(a, b, m), Peasant(Scale(m, a), c, n))
    decreases m
  {
    hide Double, Low, Add, Half;
    if m == 0 {
      AddLaws(Peasant(a, b, n), 0, 0);
    } else {
      ScaleAdd(m - 1, 1, a);
      ScaleOne(a);
      PeasantSplit(Double(a), Half(b), m - 1, n, c);
      AddLaws(Low(b, a), Peasant(Double(a), Half(b), m - 1), Peasant(Scale(m, a), c, n));
    }
  }

  function Halves(b: bv8, m: nat): bv8
    decreases m
  {
    if m == 0 then b else Halves(Half(b), m - 1)
  }

  lemma ScaleOne(a: bv8)
    ensures Scale(1, a) == Double(a)
  {
    hide Double;
  }

  lemma HalvesFour(b: bv8)
    ensures Halves(b, 4) == Half(Half(Half(Half(b))))
  {
    hide Half;
  }

  lemma MulUnits(b: bv8)
    ensures Mul(1, b) == b && Mul(b, 1) == b
  {
    hide Peasant, Add, Half, Low, Scale, Halves;
    PeasantSplit(1, b, 4, 4, Halves(b, 4));
    HalvesFour(b);
    Nibbles(b);
    LowNibble(b);
    HighNibble(b);
    MulOneRight(b);
  }

  lemma MulOneRight(b: bv8)
    ensures Mul(b, 1) == b
  {
    hide Add, Double;
    var d := Double(b);
    PeasantAdd(0, 0, d, 7);
    AddLaws(0, 0, 0);
    AddLaws(Peasant(d, 0, 7), b, 0);
    AddLaws(b, 0, 0);
    OneHalf(b);
  }

  lemma OneHalf(b: bv8)
    ensures Half(1) == 0 && Low(1, b) == b
  {}

  lemma MulZero(b: bv8)
    ensures Mul(0, b) == 0 && Mul(b, 0) == 0
  {
    hide Peasant;
    PeasantDouble(0, b, 8);
    AddLaws(0, 0, 0);
    AddLaws(Mul(b, 0), 0, 0);
    MulAdd(0, 0, b);
  }

  lemma {:induction false} MulScale(n: nat, a: bv8, b: bv8)
    ensures Mul(Scale(n, a), b) == Scale(n, Mul(a, b))
    decreases n
  {
    hide Double, Peasant;
    if n > 0 {
      PeasantDouble(Scale(n - 1, a), b, 8);
      MulScale(n - 1, a, b);
    }
  }

  lemma {:induction false} ScaleAdd(m: nat, n: nat, x: bv8)
    ensures Scale(m + n, x) == Scale(m, Scale(n, x))
    decreases m
  {
    hide Double;
    if m > 0 { ScaleAdd(m - 1, n, x); }
  }

  /** Multiplying by a power of alpha is repeated doubling. */
  lemma MulAlpha(n: nat, b: bv8)
    ensures Mul(Alpha(n), b) == Scale(n, b)
  {
    hide Mul, Scale;
    MulScale(n, 1, b);
    MulUnits(b);
  }

  lemma AlphaSum(m: nat, n: nat)
    ensures Alpha(m + n) == Mul(Alpha(m), Alpha(n))
  {
    hide Mul, Scale;
    MulAlpha(m, Alpha(n));
    ScaleAdd(m, n, 1);
  }

  // ---- The order of alpha ------------------------------------------------

  lemma DoubleInjective(x: bv8, y: bv8)
    requires Double(x) == Double(y)
    ensures x == y
  {}

  lemma {:induction false} ScaleInjective(n: nat, x: bv8, y: bv8)
    requires Scale(n, x) == Scale(n, y)
    ensures x == y
    decreases n
  {
    if n > 0 {
      DoubleInjective(Scale(n - 1, x), Scale(n - 1, y));
      ScaleInjective(n - 1, x, y);
    }
  }

  lemma {:induction false} ScaleZero(n: nat)
    ensures Scale(n, 0) == 0
    decreases n
  {
    if n > 0 { ScaleZero(n - 1); }
  }

  lemma AlphaNonZero(n: nat)
    ensures Alpha(n) != 0
  {
    ScaleZero(n);
    if Alpha(n) == 0 { ScaleInjective(n, 1, 0); }
  }

  lemma PeasantStep(a: bv8, b: bv8, n: nat)
    ensures Peasant(a, b, 0) == 0 && Peasant(a, b, n + 1) == Add(Low(b, a), Peasant(Double(a), Half(b), n))
  {}

  /** A product from the successive doublings of its first factor. */
  lemma MulIs(a: bv8, b: bv8, a1: bv8, a2: bv8, a3: bv8, a4: bv8, a5: bv8, a6: bv8, a7: bv8)
    requires a1 == Double(a) && a2 == Double(a1) && a3 == Double(a2) && a4 == Double(a3)
    requires a5 == Double(a4) && a6 == Double(a5) && a7 == Double(a6)
    ensures Mul(a, b) == Low(b, a) ^ Low(b >> 1, a1) ^ Low(b >> 2, a2) ^ Low(b >> 3, a3) ^ Low(b >> 4, a4) ^
      Low(b >> 5, a5) ^ Low(b >> 6, a6) ^ Low(b >> 7, a7)
  {
    MulUnrolled(a, b, a1, a2, a3, a4, a5, a6, a7);
    hide Mul, Double, Peasant, Low;
    HalfTimes(b);
    hide Half;
    Xor8(Low(b, a), Low(b >> 1, a1), Low(b >> 2, a2), Low(b >> 3, a3), Low(b >> 4, a4), Low(b >> 5, a5), Low(b >> 6, a6),
         Low(b >> 7, a7));
  }

  lemma MulUnrolled(a: bv8, b: bv8, a1: bv8, a2: bv8, a3: bv8, a4: bv8, a5: bv8, a6: bv8, a7: bv8)
    requires a1 == Double(a) && a2 == Double(a1) && a3 == Double(a2) && a4 == Double(a3)
    requires a5 == Double(a4) && a6 == Double(a5) && a7 == Double(a6)
    ensures var b1, b2 := Half(b), Half(Half(b));
      var b3, b4 := Half(b2), Half(Half(b2));
      var b5, b6 := Half(b4), Half(Half(b4));
      Mul(a, b) == Add(Low(b, a), Add(Low(b1, a1), Add(Low(b2, a2), Add(Low(b3, a3), Add(Low(b4, a4), Add(Low(b5, a5),
        Add(Low(b6, a6), Add(Low(Half(b6), a7), 0))))))))
  {
    hide Double, Half, Low, Add, Peasant;
    var b1, b2 := Half(b), Half(Half(b));
    var b3, b4 := Half(b2), Half(Half(b2));
    var b5, b6 := Half(b4), Half(Half(b4));
    PeasantStep(a, b, 7);
    PeasantStep(a1, b1, 6);
    PeasantStep(a2, b2, 5);
    PeasantStep(a3, b3, 4);
    PeasantStep(a4, b4, 3);
    PeasantStep(a5, b5, 2);
    PeasantStep(a6, b6, 1);
    PeasantStep(a7, Half(b6), 0);
    PeasantStep(Double(a7), Half(Half(b6)), 0);
  }

  lemma HalfTimes(b: bv8)
    ensures var b1, b2 := Half(b), Half(Half(b));
      var b3, b4 := Half(b2), Half(Half(b2));
      var b5, b6 := Half(b4), Half(Half(b4));
      b1 == b >> 1 && b2 == b >> 2 && b3 == b >> 3 && b4 == b >> 4 && b5 == b >> 5 && b6 == b >> 6 && Half(b6) == b >> 7
  {}

  lemma Xor8(a: bv8, b: bv8, c: bv8, d: bv8, e: bv8, f: bv8, g: bv8, h: bv8)
    ensures Add(a, Add(b, Add(c, Add(d, Add(e, Add(f, Add(g, Add(h, 0)))))))) == a ^ b ^ c ^ d ^ e ^ f ^ g ^ h
  {}

  lemma Squares1()
    ensures Mul(0x1d, 0x1d) == 0x4c && Mul(0x4c, 0x4c) == 0x9d
  {
    hide Mul, Peasant;
    MulIs(0x1d, 0x1d, 0x3a, 0x74, 0xe8, 0xcd, 0x87, 0x13, 0x26);
    MulIs(0x4c, 0x4c, 0x98, 0x2d, 0x5a, 0xb4, 0x75, 0xea, 0xc9);
  }

  lemma Squares2()
    ensures Mul(0x9d, 0x9d) == 0x5f && Mul(0x5f, 0x5f) == 0x85
  {
    hide Mul, Peasant;
    MulIs(0x9d, 0x9d, 0x27, 0x4e, 0x9c, 0x25, 0x4a, 0x94, 0x35);
    MulIs(0x5f, 0x5f, 0xbe, 0x61, 0xc2, 0x99, 0x2f, 0x5e, 0xbc);
  }

  lemma FirstPowers()
    ensures Alpha(1) == 2 && Alpha(2) == 4 && Alpha(4) == 0x10 && Alpha(8) == 0x1d
  {}

  /** alpha^(2^k) for k up to 7, by squaring. */
  lemma AlphaSquares()
    ensures Alpha(1) == 2 && Alpha(2) == 4 && Alpha(4) == 0x10 && Alpha(8) == 0x1d
    ensures Alpha(16) == 0x4c && Alpha(32) == 0x9d && Alpha(64) == 0x5f && Alpha(128) == 0x85
  {
    hide Alpha, Mul;
    FirstPowers();
    Squares1();
    Squares2();
    AlphaSum(8, 8); AlphaSum(16, 16); AlphaSum(32, 32); AlphaSum(64, 64);
  }

  lemma Products1()
    ensures Mul(0x80, 0x1d) == 0x26 && Mul(0x20, 0x4c) == 0x75
  {
    hide Mul, Peasant;
    MulIs(0x80, 0x1d, 0x1d, 0x3a, 0x74, 0xe8, 0xcd, 0x87, 0x13);
    MulIs(0x20, 0x4c, 0x40, 0x80, 0x1d, 0x3a, 0x74, 0xe8, 0xcd);
  }

  lemma Products2()
    ensures Mul(0x75, 0x5f) == 0xd6 && Mul(0x5a, 0x9d) == 0x0a
  {
    hide Mul, Peasant;
    MulIs(0x75, 0x5f, 0xea, 0xc9, 0x8f, 0x03, 0x06, 0x0c, 0x18);
    MulIs(0x5a, 0x9d, 0xb4, 0x75, 0xea, 0xc9, 0x8f, 0x03, 0x06);
  }

  lemma Products3()
    ensures Mul(0xd6, 0xd6) == 0xd7 && Mul(0xd7, 0xd6) == 0x01
  {
    hide Mul, Peasant;
    MulIs(0xd6, 0xd6, 0xb1, 0x7f, 0xfe, 0xe1, 0xdf, 0xa3, 0x5b);
    MulIs(0xd7, 0xd6, 0xb3, 0x7b, 0xf6, 0xf1, 0xff, 0xe3, 0xdb);
  }

  lemma Products4()
    ensures Mul(0x02, 0x04) == 0x08 && Mul(0x08, 0x10) == 0x80
  {
    hide Mul, Peasant;
    MulIs(0x02, 0x04, 0x04, 0x08, 0x10, 0x20, 0x40, 0x80, 0x1d);
    MulIs(0x08, 0x10, 0x10, 0x20, 0x40, 0x80, 0x1d, 0x3a, 0x74);
  }

  lemma Products5()
    ensures Mul(0x08, 0x4c) == 0x5a && Mul(0x02, 0x10) == 0x20
  {
    hide Mul, Peasant;
    MulIs(0x08, 0x4c, 0x10, 0x20, 0x40, 0x80, 0x1d, 0x3a, 0x74);
    MulIs(0x02, 0x10, 0x04, 0x08, 0x10, 0x20, 0x40, 0x80, 0x1d);
  }

  /** The powers that decide the order of alpha: 255 = 3 * 5 * 17. */
  lemma AlphaOrder()
    ensures Alpha(255) == 1
    ensures Alpha(15) != 1 && Alpha(51) != 1 && Alpha(85) != 1
  {
    hide Scale, Alpha, Mul;
    AlphaSquares();
    Products1();
    Products2();
    Products3();
    Products4();
    Products5();
    AlphaSum(1, 2);
    AlphaSum(3, 4); AlphaSum(7, 8);
    AlphaSum(3, 16); AlphaSum(19, 32);
    AlphaSum(1, 4); AlphaSum(5, 16); AlphaSum(21, 64);
    AlphaSum(85, 85); AlphaSum(170, 85);
  }

  lemma {:induction false} AlphaMultiple(d: nat, k: nat)
    requires Alpha(d) == 1
    ensures Alpha(d * k) == 1
    decreases k
  {
    if k > 0 {
      AlphaMultiple(d, k - 1);
      assert d * k == d * (k - 1) + d;
      AlphaSum(d * (k - 1), d);
      MulUnits(1);
    } else {
      assert d * k == 0;
    }
  }

  /** Euclid's algorithm on the exponents: if alpha^a == alpha^b == 1, so is alpha^gcd(a, b). */
  lemma {:induction false} AlphaGcd(a: nat, b: nat) returns (g: nat, x: nat, y: nat)
    requires 0 < a && Alpha(a) == 1 && Alpha(b) == 1
    ensures Alpha(g) == 1
    ensures a == x * g && b == y * g
    decreases a
  {
    hide Alpha, Mul;
    var q, r := b / a, b % a;
    assert b == a * q + r;
    AlphaMultiple(a, q);
    AlphaSum(a * q, r);
    MulUnits(Alpha(r));
    if r == 0 {
      g, x, y := a, 1, q;
    } else {
      var u, v;
      g, u, v := AlphaGcd(r, a);
      x, y := v, v * q + u;
      assert (v * q + u) * g == (v * g) * q + u * g;
    }
  }

  lemma SquareBound(y: nat, g: nat)
    requires y >= 16 && g >= 16
    ensures y * g >= 256
  {
    assert y * g == (y - 16) * g + 16 * g;
  }

  lemma DivisorsOf255(g: nat, y: nat)
    requires y * g == 255 && g < 255
    ensures g in {1, 3, 5, 15, 17, 51, 85}
  {
    if y <= 15 {
      assert y in {1, 2, 3, 4, 5, 6, 7, 8, 9, 10, 11, 12, 13, 14, 15};
    } else if g <= 15 {
      assert g in {1, 2, 3, 4, 5, 6, 7, 8, 9, 10, 11, 12, 13, 14, 15};
    } else {
      SquareBound(y, g);
    }
  }

  /** alpha is primitive: its powers below 255 are pairwise different. */
  lemma AlphaInjective(i: nat, j: nat)
    requires i < j < 255
    ensures Alpha(i) != Alpha(j)
  {
    hide Mul, Scale;
    if Alpha(i) == Alpha(j) {
      ScaleAdd(i, j - i, 1);
      ScaleInjective(i, 1, Alpha(j - i));
      AlphaOrder();
      var g, x, y := AlphaGcd(j - i, 255);
      assert g < 255 by { assert x > 0; assert g <= x * g; }
      DivisorsOf255(g, y);
      if g in {1, 3, 5, 15} {
        AlphaMultiple(g, 15 / g);
      } else if g in {17, 51} {
        AlphaMultiple(g, 51 / g);
      }
    }
  }

  // ---- Discrete logarithms -----------------------------------------------

  ghost function Numbers(lo: int, n: nat): (s: set<int>)
    ensures |s| == n
    ensures forall x :: x in s <==> lo <= x < lo + n
  {
    if n == 0 then {} else Numbers(lo, n - 1) + {lo + n - 1}
  }

  /** Pigeonhole: n distinct numbers among n leave none out. */
  lemma Pigeonhole(f: seq<int>, lo: int, x: int)
    requires forall i :: 0 <= i < |f| ==> lo <= f[i] < lo + |f|
    requires forall i, j :: 0 <= i < j < |f| ==> f[i] != f[j]
    requires lo <= x < lo + |f|
    ensures x in f
  {
    var image := set i | 0 <= i < |f| :: f[i];
    ImageSize(f, |f|);
    assert image == set i | 0 <= i < |f| :: f[..|f|][i] by { assert f[..|f|] == f; }
    var all := Numbers(lo, |f|);
    if x !in image {
      assert image <= all - {x};
      SubsetSize(image, all - {x});
    }
  }

  lemma {:induction false} ImageSize(f: seq<int>, n: nat)
    requires n <= |f|
    requires forall i, j :: 0 <= i < j < |f| ==> f[i] != f[j]
    ensures |set i | 0 <= i < n :: f[i]| == n
  {
    if n > 0 {
      ImageSize(f, n - 1);
      assert (set i | 0 <= i < n :: f[i]) == (set i | 0 <= i < n - 1 :: f[i]) + {f[n - 1]};
    }
  }

  /** Every nonzero byte is a power of alpha below 255. */
  lemma LogExists(x: bv8) returns (i: nat)
    requires x != 0
    ensures i < 255 && Alpha(i) == x
  {
    var f := seq(255, k requires 0 <= k < 255 => Alpha(k) as int);
    forall k | 0 <= k < |f| ensures 1 <= f[k] < 256 {
      AlphaNonZero(k);
    }
    forall k, l | 0 <= k < l < |f| ensures f[k] != f[l] {
      AlphaInjective(k, l);
      if f[k] == f[l] { NatOfByte(Alpha(k), Alpha(l)); }
    }
    assert 1 <= x as int < 256;
    Pigeonhole(f, 1, x as int);
    i :| 0 <= i < 255 && f[i] == x as int;
    NatOfByte(Alpha(i), x);
  }

  // ---- The field laws ----------------------------------------------------

  lemma MulCommutes(a: bv8, b: bv8)
    ensures Mul(a, b) == Mul(b, a)
  {
    hide Mul, Alpha, Scale, Add;
    MulZero(a); MulZero(b);
    if a != 0 && b != 0 {
      var i := LogExists(a);
      var j := LogExists(b);
      AlphaSum(i, j);
      AlphaSum(j, i);
    }
  }

  lemma MulAssociates(a: bv8, b: bv8, c: bv8)
    ensures Mul(Mul(a, b), c) == Mul(a, Mul(b, c))
  {
    hide Mul, Alpha, Scale, Add;
    MulZero(b); MulZero(c); MulZero(Mul(b, c));
    if a != 0 {
      var i := LogExists(a);
      MulAlpha(i, b);
      MulAlpha(i, Mul(b, c));
      MulScale(i, b, c);
    }
  }

  /** There are no zero divisors. */
  lemma MulNonZero(a: bv8, b: bv8)
    ensures Mul(a, b) == 0 <==> a == 0 || b == 0
  {
    hide Mul, Alpha, Scale, Add;
    MulZero(a); MulZero(b);
    if a != 0 && b != 0 {
      var i := LogExists(a);
      var j := LogExists(b);
      AlphaSum(i, j);
      AlphaNonZero(i + j);
    }
  }

  /** The field is the one of x^8 + x^4 + x^3 + x^2 + 1. */
  lemma AlphaToTheEighth()
    ensures Alpha(8) == 0x1d && forall k :: 0 <= k < 8 ==> Alpha(k) as nat == [1, 2, 4, 8, 16, 32, 64, 128][k]
  {}
}
