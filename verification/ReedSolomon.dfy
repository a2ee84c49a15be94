/** Reed-Solomon error correction (section 7.5 of ISO/IEC 18004:2015): the generator
    polynomial, the shift register that divides by it, and what the code words are for. */
module ReedSolomon {
  import opened GF256
  import opened GFTables

  /** Coefficients, highest degree first. */
  type Poly = seq<bv8>

  // ---- Polynomials -------------------------------------------------------

  function Zeros(n: nat): (p: Poly)
    ensures |p| == n && forall i :: 0 <= i < n ==> p[i] == 0
  {
    seq(n, _ => 0)
  }

  /** p(x), by Horner's rule. */
  function Eval(p: Poly, x: bv8): bv8 {
    if p == [] then 0 else Add(Mul(Eval(p[..|p| - 1], x), x), p[|p| - 1])
  }

  /** f * p */
  function ScaleBy(f: bv8, p: Poly): (r: Poly)
    ensures |r| == |p| && forall i :: 0 <= i < |p| ==> r[i] == Mul(f, p[i])
  {
    seq(|p|, i requires 0 <= i < |p| => Mul(f, p[i]))
  }

  /** a + b, the constant terms aligned. */
  function AddTail(a: Poly, b: Poly): (r: Poly)
    requires |b| <= |a|
    ensures |r| == |a|
    ensures forall i :: 0 <= i < |a| - |b| ==> r[i] == a[i]
    ensures forall i :: |a| - |b| <= i < |a| ==> r[i] == Add(a[i], b[i - (|a| - |b|)])
  {
    seq(|a|, i requires 0 <= i < |a| => if i < |a| - |b| then a[i] else Add(a[i], b[i - (|a| - |b|)]))
  }

  /** q * g, as |q| + |g| - 1 coefficients. */
  function Product(q: Poly, g: Poly): (r: Poly)
    requires g != []
    ensures |r| == |q| + |g| - 1
  {
    if q == [] then Zeros(|g| - 1)
    else AddTail(Product(q[..|q| - 1], g) + [0], ScaleBy(q[|q| - 1], g))
  }

  lemma EvalPush(p: Poly, c: bv8, x: bv8)
    ensures Eval(p + [c], x) == Add(Mul(Eval(p, x), x), c)
  {
    assert (p + [c])[..|p|] == p;
  }

  lemma {:induction false} EvalZeros(n: nat, x: bv8)
    ensures Eval(Zeros(n), x) == 0
  {
    hide Add, Mul;
    if n > 0 {
      assert Zeros(n) == Zeros(n - 1) + [0];
      EvalPush(Zeros(n - 1), 0, x);
      EvalZeros(n - 1, x);
      MulZero(x);
      AddLaws(0, 0, 0);
    }
  }

  lemma {:induction false} EvalScaleBy(f: bv8, p: Poly, x: bv8)
    ensures Eval(ScaleBy(f, p), x) == Mul(f, Eval(p, x))
  {
    hide Add, Mul;
    if p == [] {
      MulZero(f);
    } else {
      var q, c := p[..|p| - 1], p[|p| - 1];
      assert ScaleBy(f, p) == ScaleBy(f, q) + [Mul(f, c)];
      EvalPush(ScaleBy(f, q), Mul(f, c), x);
      EvalScaleBy(f, q, x);
      MulAssociates(f, Eval(q, x), x);
      MulAdd(Mul(Eval(q, x), x), c, f);
    }
  }

  lemma {:induction false} EvalAddTail(a: Poly, b: Poly, x: bv8)
    requires |b| <= |a|
    ensures Eval(AddTail(a, b), x) == Add(Eval(a, x), Eval(b, x))
  {
    hide Add, Mul;
    if b == [] {
      assert AddTail(a, b) == a;
      AddLaws(Eval(a, x), 0, 0);
    } else {
      var a', ca := a[..|a| - 1], a[|a| - 1];
      var b', cb := b[..|b| - 1], b[|b| - 1];
      assert AddTail(a, b) == AddTail(a', b') + [Add(ca, cb)];
      EvalPush(AddTail(a', b'), Add(ca, cb), x);
      EvalAddTail(a', b', x);
      MulAdd(Eval(a', x), Eval(b', x), x);
      AddSwap(Mul(Eval(a', x), x), Mul(Eval(b', x), x), ca, cb);
    }
  }

  lemma {:induction false} EvalProduct(q: Poly, g: Poly, x: bv8)
    requires g != []
    ensures Eval(Product(q, g), x) == Mul(Eval(q, x), Eval(g, x))
  {
    hide Add, Mul;
    if q == [] {
      EvalZeros(|g| - 1, x);
      MulZero(Eval(g, x));
    } else {
      var q', f := q[..|q| - 1], q[|q| - 1];
      var p := Product(q', g);
      EvalAddTail(p + [0], ScaleBy(f, g), x);
      EvalPush(p, 0, x);
      EvalProduct(q', g, x);
      EvalScaleBy(f, g, x);
      var (eq, eg) := (Eval(q', x), Eval(g, x));
      AddLaws(Mul(Mul(eq, eg), x), 0, 0);
      assert Mul(Mul(eq, eg), x) == Mul(Mul(eq, x), eg) by {
        MulAssociates(eq, eg, x);
        MulCommutes(eg, x);
        MulAssociates(eq, x, eg);
      }
      MulAdd(Mul(eq, x), f, eg);
    }
  }

  // ---- The generator polynomial ------------------------------------------

  /** p * (X + r) */
  function TimesRoot(p: Poly, r: bv8): (q: Poly)
    ensures |q| == |p| + 1
  {
    seq(|p| + 1, i requires 0 <= i <= |p| =>
      Add(if i > 0 then Mul(p[i - 1], r) else 0, if i < |p| then p[i] else 0))
  }

  /** (X + alpha^0)(X + alpha^1)...(X + alpha^(d-1)) */
  function Generator(d: nat): (g: Poly)
    ensures |g| == d + 1
  {
    if d == 0 then [1] else TimesRoot(Generator(d - 1), Alpha(d - 1))
  }

  lemma TimesRootAt(p: Poly, r: bv8, i: nat)
    requires i <= |p|
    ensures TimesRoot(p, r)[i] == Add(if i > 0 then Mul(p[i - 1], r) else 0, if i < |p| then p[i] else 0)
  {}

  /** p * (X + r) == p * X + r * p, term by term. */
  lemma TimesRootSplits(p: Poly, r: bv8)
    ensures TimesRoot(p, r) == AddTail(p + [0], ScaleBy(r, p))
  {
    hide Add, Mul, TimesRoot;
    var s, t := TimesRoot(p, r), AddTail(p + [0], ScaleBy(r, p));
    forall i | 0 <= i <= |p| ensures s[i] == t[i] {
      TimesRootAt(p, r, i);
      var own := if i < |p| then p[i] else 0;
      if i > 0 {
        MulCommutes(p[i - 1], r);
        AddLaws(Mul(p[i - 1], r), own, 0);
      } else {
        AddLaws(own, 0, 0);
      }
    }
  }

  lemma EvalTimesRoot(p: Poly, r: bv8, x: bv8)
    ensures Eval(TimesRoot(p, r), x) == Mul(Eval(p, x), Add(x, r))
  {
    hide Add, Mul, Eval, TimesRoot, AddTail, ScaleBy;
    TimesRootSplits(p, r);
    EvalAddTail(p + [0], ScaleBy(r, p), x);
    EvalPush(p, 0, x);
    EvalScaleBy(r, p, x);
    AddLaws(Mul(Eval(p, x), x), 0, 0);
    MulCommutes(r, Eval(p, x));
    MulAdd(x, r, Eval(p, x));
  }

  predicate IsRoot(d: nat, x: bv8) {
    exists j :: 0 <= j < d && x == Alpha(j)
  }

  lemma IsRootNext(d: nat, x: bv8)
    ensures IsRoot(d + 1, x) <==> IsRoot(d, x) || x == Alpha(d)
    ensures !IsRoot(0, x)
  {
    hide Alpha;
  }

  /** The generator vanishes exactly at the powers of alpha it was built from. */
  lemma {:induction false} GeneratorRoots(d: nat, x: bv8)
    ensures Eval(Generator(d), x) == 0 <==> IsRoot(d, x)
  {
    hide Add, Mul, Alpha, Eval, TimesRoot, IsRoot;
    if d == 0 {
      EvalOne(x);
      IsRootNext(0, x);
    } else {
      GeneratorRoots(d - 1, x);
      IsRootNext(d - 1, x);
      EvalTimesRoot(Generator(d - 1), Alpha(d - 1), x);
      AddLaws(x, Alpha(d - 1), 0);
      MulNonZero(Eval(Generator(d - 1), x), Add(x, Alpha(d - 1)));
    }
  }

  lemma EvalOne(x: bv8)
    ensures Eval([1], x) == 1
  {
    hide Add, Mul;
    assert [] + [1 as bv8] == [1];
    EvalPush([], 1, x);
    MulZero(x);
    AddLaws(1, 0, 0);
  }

  lemma {:induction false} GeneratorMonic(d: nat)
    ensures Generator(d)[0] == 1
  {
    hide Add, Mul, Alpha;
    if d > 0 {
      GeneratorMonic(d - 1);
      AddLaws(1, 0, 0);
    }
  }

  /** rsGenerator: each round multiplies by one more linear factor into a fresh array.
      The EXP table has 512 entries, which bounds the degree. */
  method RsGenerator(exp: array<bv8>, log: array<nat>, degree: nat) returns (poly: Poly)
    requires Tables(exp, log) && degree <= 512
    ensures poly == Generator(degree)
  {
    hide Add, Mul, Alpha, TimesRoot;
    poly := [1];
    for d := 0 to degree
      invariant poly == Generator(d)
    {
      var r := Alpha(d);
      var next := new bv8[|poly| + 1](_ => 0);
      for i := 0 to |poly|
        invariant next[i] == if i > 0 then Mul(poly[i - 1], r) else 0
        invariant forall k :: 0 <= k < i ==> next[k] == TimesRoot(poly, r)[k]
        invariant forall k :: i < k <= |poly| ==> next[k] == 0
      {
        TimesRootAt(poly, r, i);
        AddLaws(Mul(poly[i], r), 0, 0);
        next[i] := Add(next[i], poly[i]);
        next[i + 1] := Add(next[i + 1], TableMul(exp, log, poly[i], exp[d]));
      }
      TimesRootAt(poly, r, |poly|);
      AddLaws(next[|poly|], 0, 0);
      assert next[..] == TimesRoot(poly, r);
      poly := next[..];
    }
  }

  // ---- The shift register ------------------------------------------------

  /** One data byte through the register: shift left, then subtract factor * div.
      An empty register reads as 0 and grows to one cell. */
  function RsStep(div: Poly, reg: Poly, d: bv8): (r: Poly)
    requires |reg| <= |div| || |div| == 0
    ensures |r| == if |reg| == 0 then 1 else |reg|
  {
    var factor := Add(d, if reg == [] then 0 else reg[0]);
    var shifted := (if reg == [] then [] else reg[1..]) + [0];
    seq(|shifted|, i requires 0 <= i < |shifted| =>
      if i < |div| then Add(shifted[i], Mul(div[i], factor)) else shifted[i])
  }

  function RegisterAfter(data: Poly, ecCount: nat): (r: Poly)
    ensures |r| == if ecCount == 0 && data != [] then 1 else ecCount
  {
    if data == [] then Zeros(ecCount)
    else RsStep(Generator(ecCount)[1..], RegisterAfter(data[..|data| - 1], ecCount), data[|data| - 1])
  }

  /** rsEncode: the error correction code words of one block. */
  method RsEncode(exp: array<bv8>, log: array<nat>, data: Poly, ecCount: nat) returns (res: Poly)
    requires Tables(exp, log) && ecCount <= 512
    ensures res == RegisterAfter(data, ecCount)
  {
    hide RsStep, Tables, Generator;
    var div := RsGenerator(exp, log, ecCount);
    div := div[1..];
    res := Zeros(ecCount);
    for i := 0 to |data|
      invariant res == RegisterAfter(data[..i], ecCount)
    {
      res := Feed(exp, log, div, res, data[i]);
      assert data[..i + 1][..i] == data[..i];
    }
    assert data[..|data|] == data;
  }

  /** The body of the loop over the data: shift the register, then add factor * div to it. */
  method Feed(exp: array<bv8>, log: array<nat>, div: Poly, reg: Poly, d: bv8) returns (res: Poly)
    requires Tables(exp, log)
    requires |reg| == |div| || |div| == 0
    ensures res == RsStep(div, reg, d)
  {
    hide Add, Mul, Tables;
    var factor := Add(d, if |reg| == 0 then 0 else reg[0]);
    res := (if |reg| == 0 then [] else reg[1..]) + [0];
    ghost var shifted := res;
    for j := 0 to |div|
      invariant |res| == |shifted|
      invariant forall k :: 0 <= k < j ==> res[k] == Add(shifted[k], Mul(div[k], factor))
      invariant forall k :: j <= k < |res| ==> res[k] == shifted[k]
    {
      res := res[j := Add(res[j], TableMul(exp, log, div[j], factor))];
    }
  }

  /** The quotient of the division the register carries out: its successive factors. */
  ghost function Quotient(data: Poly, ecCount: nat): (q: Poly)
    requires ecCount > 0
    ensures |q| == |data|
  {
    if data == [] then []
    else
      var n := |data| - 1;
      Quotient(data[..n], ecCount) + [Add(data[n], RegisterAfter(data[..n], ecCount)[0])]
  }

  /** What a scanner reads back: the data followed by its error correction code words. */
  function Codeword(data: Poly, ecCount: nat): Poly {
    data + RegisterAfter(data, ecCount)
  }

  /** One step of long division: the leading coefficients cancel. */
  lemma RsStepDivides(front: Poly, reg: Poly, d: bv8, ecCount: nat)
    requires 0 < ecCount == |reg|
    ensures (front + [d]) + RsStep(Generator(ecCount)[1..], reg, d)
         == AddTail(front + reg + [0], ScaleBy(Add(d, reg[0]), Generator(ecCount)))
  {
    hide Add, Mul, Generator;
    var g, f, n := Generator(ecCount), Add(d, reg[0]), |front|;
    var lhs := (front + [d]) + RsStep(g[1..], reg, d);
    var wide := front + reg + [0];
    var rhs := AddTail(wide, ScaleBy(f, g));
    forall i | 0 <= i < |lhs| ensures lhs[i] == rhs[i] {
      if i == n {
        GeneratorMonic(ecCount);
        MulUnits(f);
        AddLaws(reg[0], d, reg[0]);
        AddLaws(d, reg[0], reg[0]);
        AddLaws(d, 0, 0);
        AddLaws(reg[0], 0, 0);
      } else if i > n {
        MulCommutes(f, g[i - n]);
      }
    }
  }

  /** The register is the remainder of the division by the generator:
      data followed by the register is a multiple of the generator polynomial. */
  lemma {:induction false} CodewordIsMultiple(data: Poly, ecCount: nat)
    requires ecCount > 0
    ensures Codeword(data, ecCount) == Product(Quotient(data, ecCount), Generator(ecCount))
  {
    hide *;
    if data == [] {
      EmptyDivision(ecCount);
    } else {
      var n := |data| - 1;
      var front, d := data[..n], data[n];
      var reg, q := RegisterAfter(front, ecCount), Quotient(front, ecCount);
      CodewordIsMultiple(front, ecCount);
      GeneratorMonic(ecCount);
      assert Codeword(front, ecCount) == front + reg by { CodewordIs(front, ecCount); }
      CodewordIs(data, ecCount);
      RegisterNext(data, ecCount);
      RsStepDivides(front, reg, d, ecCount);
      assert front + [d] == data;
      assert Product(q, Generator(ecCount)) == front + reg;
      ProductNext(q, Add(d, reg[0]), Generator(ecCount));
    }
  }

  lemma EmptyDivision(ecCount: nat)
    requires ecCount > 0
    ensures Codeword([], ecCount) == Product(Quotient([], ecCount), Generator(ecCount))
  {
    hide Zeros, Generator;
  }

  lemma CodewordIs(data: Poly, ecCount: nat)
    ensures Codeword(data, ecCount) == data + RegisterAfter(data, ecCount)
  {}

  lemma RegisterNext(data: Poly, ecCount: nat)
    requires ecCount > 0 && data != []
    ensures var front, d := data[..|data| - 1], data[|data| - 1];
      RegisterAfter(data, ecCount) == RsStep(Generator(ecCount)[1..], RegisterAfter(front, ecCount), d) &&
      Quotient(data, ecCount) == Quotient(front, ecCount) + [Add(d, RegisterAfter(front, ecCount)[0])]
  {
    hide Add, RsStep, Generator;
  }

  lemma ProductNext(q: Poly, f: bv8, g: Poly)
    requires g != []
    ensures Product(q + [f], g) == AddTail(Product(q, g) + [0], ScaleBy(f, g))
  {
    hide AddTail, ScaleBy;
    assert (q + [f])[..|q|] == q;
  }

  /** Section 7.5: every block vanishes at alpha^0 .. alpha^(ecCount-1). */
  lemma CodewordVanishes(data: Poly, ecCount: nat, j: nat)
    requires j < ecCount
    ensures Eval(Codeword(data, ecCount), Alpha(j)) == 0
  {
    hide Add, Mul, Alpha;
    var q, g := Quotient(data, ecCount), Generator(ecCount);
    CodewordIsMultiple(data, ecCount);
    EvalProduct(q, g, Alpha(j));
    GeneratorRoots(ecCount, Alpha(j));
    MulZero(Eval(q, Alpha(j)));
  }
}
