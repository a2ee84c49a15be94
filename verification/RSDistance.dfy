/** What the error correction code words buy: two different blocks of at most 255 bytes differ
    in more than ecCount places, so up to ecCount wrong bytes are detected and up to
    ecCount / 2 leave a unique nearest block. */
module RSDistance {
  import opened GF256
  import opened ReedSolomon

  /** The number of nonzero coefficients. */
  function Weight(p: Poly): (w: nat)
    ensures w <= |p|
  {
    if p == [] then 0 else Weight(p[..|p| - 1]) + if p[|p| - 1] == 0 then 0 else 1
  }

  /** The number of places where two equally long blocks differ. */
  function Distance(a: Poly, b: Poly): nat
    requires |a| == |b|
  {
    if a == [] then 0
    else Distance(a[..|a| - 1], b[..|b| - 1]) + if a[|a| - 1] == b[|b| - 1] then 0 else 1
  }

  // ---- Evaluating at alpha times x ---------------------------------------

  /** The coefficient of X^e times (alpha^(e + shift)), for every e: p(alpha * X) when shift is 0. */
  function Twist(p: Poly, shift: nat): (q: Poly)
    ensures |q| == |p|
    ensures forall k :: 0 <= k < |p| ==> q[k] == Mul(p[k], Alpha(|p| - 1 - k + shift))
  {
    seq(|p|, k requires 0 <= k < |p| => Mul(p[k], Alpha(|p| - 1 - k + shift)))
  }

  lemma {:induction false} EvalTwist(p: Poly, shift: nat, x: bv8)
    ensures Eval(Twist(p, shift), x) == Mul(Alpha(shift), Eval(p, Mul(Alpha(1), x)))
  {
    hide Add, Mul, Alpha;
    if p == [] {
      MulZero(Alpha(shift));
    } else {
      var q, c := p[..|p| - 1], p[|p| - 1];
      assert Twist(p, shift) == Twist(q, shift + 1) + [Mul(c, Alpha(shift))];
      EvalPush(Twist(q, shift + 1), Mul(c, Alpha(shift)), x);
      EvalTwist(q, shift + 1, x);
      var (s, y) := (Alpha(shift), Mul(Alpha(1), x));
      var e := Eval(q, y);
      assert Mul(Mul(Alpha(shift + 1), e), x) == Mul(s, Mul(e, y)) by {
        AlphaSum(shift, 1);
        MulAssociates(s, Alpha(1), e);
        MulAssociates(s, Mul(Alpha(1), e), x);
        MulCommutes(Alpha(1), e);
        MulAssociates(e, Alpha(1), x);
      }
      MulCommutes(c, s);
      MulAdd(Mul(e, y), c, s);
    }
  }

  /** p(alpha X) + alpha^e p(X): the coefficient of X^e disappears, no zero becomes nonzero. */
  function Eliminate(p: Poly, e: nat): (q: Poly)
    ensures |q| == |p|
  {
    AddTail(Twist(p, 0), ScaleBy(Alpha(e), p))
  }

  lemma EliminateAt(p: Poly, e: nat, k: nat)
    requires e < |p| <= 255 && k < |p|
    ensures Eliminate(p, e)[k] == 0 <==> p[k] == 0 || k == |p| - 1 - e
  {
    hide Add, Mul, Alpha;
    var f := |p| - 1 - k;
    assert Eliminate(p, e)[k] == Add(Mul(p[k], Alpha(f)), Mul(Alpha(e), p[k]));
    MulCommutes(Alpha(e), p[k]);
    MulAdd(Alpha(f), Alpha(e), p[k]);
    MulNonZero(p[k], Add(Alpha(f), Alpha(e)));
    AddLaws(Alpha(f), Alpha(e), 0);
    if f < e { AlphaInjective(f, e); }
    if e < f { AlphaInjective(e, f); }
  }

  lemma EvalEliminate(p: Poly, e: nat, j: nat)
    requires Eval(p, Alpha(j)) == 0 && Eval(p, Alpha(j + 1)) == 0
    ensures Eval(Eliminate(p, e), Alpha(j)) == 0
  {
    hide Add, Mul, Alpha, Eval;
    var x := Alpha(j);
    EvalAddTail(Twist(p, 0), ScaleBy(Alpha(e), p), x);
    EvalTwist(p, 0, x);
    AlphaSum(1, j);
    EvalScaleBy(Alpha(e), p, x);
    MulZero(Alpha(0));
    MulZero(Alpha(e));
    AddLaws(0, 0, 0);
  }

  // ---- Weights -----------------------------------------------------------

  lemma {:induction false} WeightZero(p: Poly)
    ensures Weight(p) == 0 <==> forall k :: 0 <= k < |p| ==> p[k] == 0
  {
    if p != [] {
      var q := p[..|p| - 1];
      WeightZero(q);
      assert forall k :: 0 <= k < |q| ==> p[k] == q[k];
    }
  }

  /** Turning one nonzero coefficient to zero, and no zero to nonzero, lowers the weight by one. */
  lemma {:induction false} WeightDrops(p: Poly, q: Poly, at: nat)
    requires |p| == |q| && at < |p| && p[at] != 0
    requires forall k :: 0 <= k < |p| ==> (q[k] == 0 <==> p[k] == 0 || k == at)
    ensures Weight(q) == Weight(p) - 1
  {
    var n := |p| - 1;
    if at == n {
      WeightSame(p[..n], q[..n]);
    } else {
      WeightDrops(p[..n], q[..n], at);
    }
  }

  lemma {:induction false} WeightSame(p: Poly, q: Poly)
    requires |p| == |q|
    requires forall k :: 0 <= k < |p| ==> (q[k] == 0 <==> p[k] == 0)
    ensures Weight(q) == Weight(p)
  {
    if p != [] { WeightSame(p[..|p| - 1], q[..|q| - 1]); }
  }

  /** A single nonzero coefficient cannot make a zero at alpha^0. */
  lemma {:induction false} SingleTerm(p: Poly)
    requires Weight(p) == 1
    ensures Eval(p, Alpha(0)) != 0
  {
    hide Add, Mul, Alpha;
    var q, c := p[..|p| - 1], p[|p| - 1];
    if c == 0 {
      SingleTerm(q);
      MulNonZero(Eval(q, Alpha(0)), Alpha(0));
      AlphaNonZero(0);
      AddLaws(Mul(Eval(q, Alpha(0)), Alpha(0)), 0, 0);
    } else {
      WeightZero(q);
      assert q == Zeros(|q|);
      EvalZeros(|q|, Alpha(0));
      MulZero(Alpha(0));
      AddLaws(c, 0, 0);
    }
  }

  lemma EliminateWeight(p: Poly, k: nat)
    requires k < |p| <= 255 && p[k] != 0
    ensures Weight(Eliminate(p, |p| - 1 - k)) == Weight(p) - 1
  {
    hide Eliminate, Weight;
    var q := Eliminate(p, |p| - 1 - k);
    forall i | 0 <= i < |p| ensures q[i] == 0 <==> p[i] == 0 || i == k {
      EliminateAt(p, |p| - 1 - k, i);
    }
    WeightDrops(p, q, k);
  }

  /** A polynomial of at most 255 coefficients that vanishes at n consecutive powers of alpha
      is zero or has more than n nonzero coefficients. */
  lemma {:induction false} SparseMultiple(p: Poly, n: nat)
    requires |p| <= 255
    requires forall j :: 0 <= j < n ==> Eval(p, Alpha(j)) == 0
    ensures Weight(p) == 0 || Weight(p) > n
    decreases n
  {
    hide Alpha, Eval, Eliminate, Weight;
    if n > 0 && 0 < Weight(p) <= n {
      WeightZero(p);
      var k :| 0 <= k < |p| && p[k] != 0;
      var e := |p| - 1 - k;
      EliminateWeight(p, k);
      forall j | 0 <= j < n - 1 ensures Eval(Eliminate(p, e), Alpha(j)) == 0 {
        EvalEliminate(p, e, j);
      }
      SparseMultiple(Eliminate(p, e), n - 1);
      SingleTerm(p);
    }
  }

  // ---- Blocks ------------------------------------------------------------

  lemma {:induction false} DistanceIsWeight(a: Poly, b: Poly)
    requires |a| == |b|
    ensures Distance(a, b) == Weight(AddTail(a, b))
  {
    if a != [] {
      var n := |a| - 1;
      assert AddTail(a, b)[..n] == AddTail(a[..n], b[..n]);
      AddLaws(a[n], b[n], 0);
      DistanceIsWeight(a[..n], b[..n]);
    }
  }

  lemma DistanceZero(a: Poly, b: Poly)
    requires |a| == |b|
    ensures Distance(a, b) == 0 <==> a == b
  {
    DistanceIsWeight(a, b);
    WeightZero(AddTail(a, b));
    forall k | 0 <= k < |a| ensures AddTail(a, b)[k] == 0 <==> a[k] == b[k] {
      AddLaws(a[k], b[k], 0);
    }
  }

  lemma {:induction false} Triangle(a: Poly, b: Poly, c: Poly)
    requires |a| == |b| == |c|
    ensures Distance(a, c) <= Distance(a, b) + Distance(b, c)
  {
    if a != [] {
      var n := |a| - 1;
      Triangle(a[..n], b[..n], c[..n]);
    }
  }

  lemma DifferenceVanishes(a: Poly, b: Poly, ecCount: nat, j: nat)
    requires |a| == |b| && j < ecCount
    ensures Eval(AddTail(Codeword(a, ecCount), Codeword(b, ecCount)), Alpha(j)) == 0
  {
    hide Add, Mul, Alpha, Eval, AddTail, RegisterAfter;
    EvalAddTail(Codeword(a, ecCount), Codeword(b, ecCount), Alpha(j));
    CodewordVanishes(a, ecCount, j);
    CodewordVanishes(b, ecCount, j);
    AddLaws(0, 0, 0);
  }

  /** Different data blocks give code words more than ecCount bytes apart. */
  lemma BlocksFarApart(a: Poly, b: Poly, ecCount: nat)
    requires |a| == |b| && a != b
    requires 0 < ecCount && |a| + ecCount <= 255
    ensures Distance(Codeword(a, ecCount), Codeword(b, ecCount)) > ecCount
  {
    hide Add, Mul, Alpha, Eval, AddTail, RegisterAfter, Weight, Distance;
    var ca, cb := Codeword(a, ecCount), Codeword(b, ecCount);
    forall j | 0 <= j < ecCount ensures Eval(AddTail(ca, cb), Alpha(j)) == 0 {
      DifferenceVanishes(a, b, ecCount, j);
    }
    SparseMultiple(AddTail(ca, cb), ecCount);
    DistanceIsWeight(ca, cb);
    DistanceZero(ca, cb);
    assert ca[..|a|] == a && cb[..|a|] == b;
  }

  /** Whatever is read with at most ecCount / 2 wrong bytes belongs to one block only. */
  lemma CorrectableErrors(read: Poly, a: Poly, b: Poly, ecCount: nat)
    requires 0 < ecCount && |a| == |b| && |a| + ecCount == |read| <= 255
    requires 2 * Distance(Codeword(a, ecCount), read) <= ecCount
    requires 2 * Distance(read, Codeword(b, ecCount)) <= ecCount
    ensures a == b
  {
    Triangle(Codeword(a, ecCount), read, Codeword(b, ecCount));
    if a != b { BlocksFarApart(a, b, ecCount); }
  }
}
