/** The EXP and LOG tables that stand for multiplication in GF(2^8). */
module GFTables {
  import opened Bytes
  import opened GF256

  /** What the two tables hold once the initializer has run; LOG[0] is never set. */
  ghost predicate Tables(exp: array<bv8>, log: array<nat>)
    reads exp, log
  {
    exp.Length == 512 && log.Length == 256 &&
    (forall i :: 0 <= i < 512 ==> exp[i] == Alpha(i)) &&
    (forall i :: 0 <= i < 255 ==> log[Alpha(i) as nat] == i)
  }

  /** One doubling in a register wide enough to show the carry. */
  function NextPower(x: bv16): bv16 {
    var y := x << 1;
    if y & 0x100 != 0 then y ^ 0x11d else y
  }

  lemma DoubleWide(x: bv16, byte: bv8)
    requires x == byte as bv16
    ensures NextPower(x) == Double(byte) as bv16
    ensures x < 256 && x as bv8 == byte
  {}

  lemma WideIndex(x: bv16, byte: bv8)
    requires x == byte as bv16
    ensures x as nat == byte as nat
  {}

  lemma DistinctIndex(i: nat)
    requires i < 255
    ensures forall k :: 0 <= k < i ==> Alpha(k) as nat != Alpha(i) as nat
  {
    hide Alpha;
    forall k | 0 <= k < i ensures Alpha(k) as nat != Alpha(i) as nat {
      AlphaInjective(k, i);
      if Alpha(k) as nat == Alpha(i) as nat { NatOfByte(Alpha(k), Alpha(i)); }
    }
  }

  lemma AlphaStep(i: nat)
    ensures Alpha(i + 1) == Double(Alpha(i)) && Alpha(0) == 1
  {
    hide Double;
  }

  /** The initializer: one loop doubles from 1 and records each power with its index. */
  method BuildTables() returns (exp: array<bv8>, log: array<nat>)
    ensures fresh(exp) && fresh(log)
    ensures Tables(exp, log)
  {
    hide Alpha, Double, Mul, NextPower;
    exp, log := new bv8[512], new nat[256];
    var x: bv16 := 1;
    AlphaStep(0);
    for i := 0 to 255
      invariant x == Alpha(i) as bv16
      invariant forall k :: 0 <= k < i ==> exp[k] == Alpha(k)
      invariant forall k :: 0 <= k < i ==> log[Alpha(k) as nat] == k
    {
      DoubleWide(x, Alpha(i));
      WideIndex(x, Alpha(i));
      DistinctIndex(i);
      AlphaStep(i);
      exp[i] := x as bv8;
      log[x as nat] := i;
      x := NextPower(x);
    }
    RepeatPowers(exp);
  }

  /** The second loop: the 255 powers start over to fill 512 places. */
  method RepeatPowers(exp: array<bv8>)
    requires exp.Length == 512
    requires forall i :: 0 <= i < 255 ==> exp[i] == Alpha(i)
    modifies exp
    ensures forall i :: 0 <= i < 512 ==> exp[i] == Alpha(i)
  {
    hide Alpha, Mul;
    AlphaOrder();
    for j := 255 to 512
      invariant forall k :: 0 <= k < j ==> exp[k] == Alpha(k)
    {
      AlphaSum(255, j - 255);
      MulUnits(Alpha(j - 255));
      exp[j] := exp[j - 255];
    }
  }

  /** Multiplication through the tables is the field product. */
  function TableMul(exp: array<bv8>, log: array<nat>, a: bv8, b: bv8): (p: bv8)
    requires Tables(exp, log)
    reads exp, log
    ensures p == Mul(a, b)
  {
    hide Mul, Alpha;
    MulZero(a); MulZero(b);
    if a == 0 || b == 0 then 0
    else
      var i := LogOf(a);
      var j := LogOf(b);
      AlphaSum(i, j);
      exp[log[a as nat] + log[b as nat]]
  }

  ghost function LogOf(x: bv8): (i: nat)
    requires x != 0
    ensures i < 255 && Alpha(i) == x
  {
    assert exists i: nat :: i < 255 && Alpha(i) == x by {
      var i := LogExists(x);
    }
    var i: nat :| i < 255 && Alpha(i) == x;
    i
  }
}
