/** The substitution table of the code against its definition in FIPS 197 section 5.1.1: the multiplicative inverse in
    GF(2^8), followed by an affine map over GF(2). */
module AesSBox {
  import opened AesField
  import opened AesTables

  // ---------- The field ----------

  /** Multiplying by x is doubling, less the polynomial x^8 + x^4 + x^3 + x + 1 if the top bit was set. */
  lemma XTimeIsDoubling(x: bv8)
    ensures XTime(x) == if x < 0x80 then 2 * x else (2 * x) ^ 0x1b
  {}

  lemma BitsOfSum(y: bv8, z: bv8)
    ensures Xor(y, z) & 1 != 0 <==> (y & 1 != 0) != (z & 1 != 0)
    ensures Xor(y, z) >> 1 == Xor(y >> 1, z >> 1)
  {}

  /** The product distributes over the sum, on either side. */
  lemma {:induction false} ProductOfSum(x: bv8, y: bv8, z: bv8, n: nat)
    ensures Product(x, Xor(y, z), n) == Xor(Product(x, y, n), Product(x, z, n))
    decreases n
  {
    hide Xor, XTime;
    XorRules(0, 0, 0);
    if n > 0 {
      BitsOfSum(y, z);
      ProductOfSum(XTime(x), y >> 1, z >> 1, n - 1);
      var p, q := Product(XTime(x), y >> 1, n - 1), Product(XTime(x), z >> 1, n - 1);
      PairsRegroup(if y & 1 != 0 then x else 0, p, if z & 1 != 0 then x else 0, q);
      XorRules(x, x, x);
    }
  }

  lemma {:induction false} SumTimes(x: bv8, y: bv8, z: bv8, n: nat)
    ensures Product(Xor(x, y), z, n) == Xor(Product(x, z, n), Product(y, z, n))
    decreases n
  {
    hide Xor, XTime;
    XorRules(0, 0, 0);
    if n > 0 {
      XTimeLinear(x, y);
      SumTimes(XTime(x), XTime(y), z >> 1, n - 1);
      var p, q := Product(XTime(x), z >> 1, n - 1), Product(XTime(y), z >> 1, n - 1);
      PairsRegroup(if z & 1 != 0 then x else 0, p, if z & 1 != 0 then y else 0, q);
    }
  }

  lemma XTimeOfZero()
    ensures XTime(0) == 0
  {}

  lemma {:induction false} DoubledTimes(x: bv8, y: bv8, n: nat)
    ensures Product(XTime(x), y, n) == XTime(Product(x, y, n))
    decreases n
  {
    XTimeOfZero();
    hide Xor, XTime;
    if n > 0 {
      DoubledTimes(XTime(x), y >> 1, n - 1);
      XTimeLinear(if y & 1 != 0 then x else 0, Product(XTime(x), y >> 1, n - 1));
    }
  }

  /** No bits are set from bit n on. */
  predicate Short(y: bv8, n: nat) {
    if n == 0 then y == 0 else Short(y >> 1, n - 1)
  }

  lemma {:induction false} ShortFactor(x: bv8, y: bv8, n: nat)
    requires Short(y, n)
    ensures Product(x, y, n + 1) == Product(x, y, n)
    decreases n
  {
    hide Xor, XTime;
    if n > 0 {
      ShortFactor(XTime(x), y >> 1, n - 1);
    } else {
      ProductWithZero(x, 1);
    }
  }

  lemma SevenBits(y: bv8)
    ensures (y >> 1) >> 1 == y >> 2 && (y >> 2) >> 1 == y >> 3 && (y >> 3) >> 1 == y >> 4
    ensures (y >> 4) >> 1 == y >> 5 && (y >> 5) >> 1 == y >> 6 && (y >> 6) >> 1 == y >> 7
    ensures y < 0x80 ==> y >> 7 == 0
  {}

  lemma ShortBelow80(y: bv8)
    requires y < 0x80
    ensures Short(y, 7)
  {
    SevenBits(y);
    assert Short(y >> 7, 0) && Short(y >> 6, 1) && Short(y >> 5, 2) && Short(y >> 4, 3);
    assert Short(y >> 3, 4) && Short(y >> 2, 5) && Short(y >> 1, 6);
  }

  /** Every byte but 0 is twice a smaller one, or one more than a smaller one. */
  lemma EvenOrOdd(y: bv8) returns (z: bv8)
    requires y != 0
    ensures z < y
    ensures if y & 1 == 0 then y == XTime(z) && y >> 1 == z && z < 0x80 else y == Xor(1, z) && z & 1 == 0
  {
    z := if y & 1 == 0 then y >> 1 else y - 1;
  }

  /** Doubling the second factor doubles the product. */
  lemma TimesDoubled(x: bv8, y: bv8, z: bv8)
    requires y & 1 == 0 && y >> 1 == z && z < 0x80
    ensures GfMul(x, y) == XTime(GfMul(x, z))
  {
    ShortBelow80(z);
    ShortFactor(XTime(x), z, 7);
    DoubledTimes(x, z, 8);
    hide Xor, XTime;
    XorRules(Product(XTime(x), z, 7), 0, 0);
    assert GfMul(x, y) == Product(XTime(x), z, 7);
  }

  lemma TimesOne(x: bv8)
    ensures GfMul(x, 1) == x
  {
    hide Xor, XTime;
    assert 1 as bv8 >> 1 == 0;
    ProductWithZero(XTime(x), 7);
    XorRules(x, 0, 0);
  }

  lemma {:induction false} OneTimes(x: bv8)
    ensures GfMul(1, x) == x
    decreases x
  {
    if x == 0 {
      ProductWithZero(1, 8);
    } else {
      var z := EvenOrOdd(x);
      OneTimes(z);
      if x & 1 == 0 {
        TimesDoubled(1, x, z);
      } else {
        TimesOne(1);
        ProductOfSum(1, 1, z, 8);
      }
    }
  }

  lemma {:induction false} ZeroTimes(y: bv8, n: nat)
    ensures Product(0, y, n) == 0
    decreases n
  {
    XTimeOfZero();
    XorRules(0, 0, 0);
    hide Xor, XTime;
    if n > 0 {
      ZeroTimes(y >> 1, n - 1);
    }
  }

  lemma {:induction false} Commutes(x: bv8, y: bv8)
    ensures GfMul(x, y) == GfMul(y, x)
    decreases y
  {
    if y == 0 {
      ProductWithZero(x, 8);
      ZeroTimes(x, 8);
    } else {
      var z := EvenOrOdd(y);
      Commutes(x, z);
      hide Product, Xor, XTime;
      if y & 1 == 0 {
        TimesDoubled(x, y, z);
        DoubledTimes(z, x, 8);
      } else {
        ProductOfSum(x, 1, z, 8);
        SumTimes(1, z, x, 8);
        TimesOne(x);
        OneTimes(x);
      }
    }
  }

  lemma TimesXTime(x: bv8, y: bv8)
    ensures GfMul(x, XTime(y)) == XTime(GfMul(x, y))
  {
    hide Product, XTime;
    Commutes(x, XTime(y));
    Commutes(x, y);
    DoubledTimes(y, x, 8);
  }

  lemma {:induction false} ProductAssociates(x: bv8, y: bv8, z: bv8, n: nat)
    ensures Product(GfMul(x, y), z, n) == GfMul(x, Product(y, z, n))
    decreases n
  {
    ProductWithZero(x, 8);
    hide GfMul, Xor, XTime;
    assert GfMul(x, 0) == 0 by { ProductWithZero(x, 8); }
    if n > 0 {
      TimesXTime(x, y);
      ProductAssociates(x, XTime(y), z >> 1, n - 1);
      SumOfTimes(x, if z & 1 != 0 then y else 0, Product(XTime(y), z >> 1, n - 1));
    }
  }

  lemma SumOfTimes(x: bv8, y: bv8, z: bv8)
    ensures GfMul(x, Xor(y, z)) == Xor(GfMul(x, y), GfMul(x, z))
  {
    ProductOfSum(x, y, z, 8);
  }

  lemma Associates(x: bv8, y: bv8, z: bv8)
    ensures GfMul(GfMul(x, y), z) == GfMul(x, GfMul(y, z))
  {
    ProductAssociates(x, y, z, 8);
  }

  // ---------- The table ----------

  /** FIPS 197 (5.1): a byte added to its four left rotations and to {63}. */
  function Affine(y: bv8): bv8 {
    y ^ ((y << 1) | (y >> 7)) ^ ((y << 2) | (y >> 6)) ^ ((y << 3) | (y >> 5)) ^ ((y << 4) | (y >> 4)) ^ 0x63
  }

  function Unaffine(z: bv8): bv8 {
    ((z << 1) | (z >> 7)) ^ ((z << 3) | (z >> 5)) ^ ((z << 6) | (z >> 2)) ^ 0x05
  }

  lemma AffineUndone(z: bv8)
    ensures Affine(Unaffine(z)) == z
  {}

  /** What the table says the inverse is. */
  function Inverse(x: bv8): bv8 {
    Unaffine(SBox(x))
  }

  lemma InverseBelow40(x: bv8)
    requires x != 0 && x >> 6 == 0
    ensures GfMul(Inverse(x), x) == 1
  {}

  lemma InverseBelow80(x: bv8)
    requires x >> 6 == 1
    ensures GfMul(Inverse(x), x) == 1
  {}

  lemma InverseBelowC0(x: bv8)
    requires x >> 6 == 2
    ensures GfMul(Inverse(x), x) == 1
  {}

  lemma InverseFromC0(x: bv8)
    requires x >> 6 == 3
    ensures GfMul(Inverse(x), x) == 1
  {}

  lemma InverseIsInverse(x: bv8)
    requires x != 0
    ensures GfMul(Inverse(x), x) == 1
  {
    hide GfMul, Inverse;
    if x >> 6 == 0 {
      InverseBelow40(x);
    } else if x >> 6 == 1 {
      InverseBelow80(x);
    } else if x >> 6 == 2 {
      InverseBelowC0(x);
    } else {
      assert x >> 6 == 3;
      InverseFromC0(x);
    }
  }

  /** A byte has one inverse. */
  lemma InverseIsUnique(x: bv8, y: bv8, z: bv8)
    requires GfMul(y, x) == 1 && GfMul(x, z) == 1
    ensures y == z
  {
    hide GfMul;
    Associates(y, x, z);
    TimesOne(y);
    OneTimes(z);
  }

  /** FIPS 197 section 5.1.1, for every byte that has an inverse; all but 0 have one. */
  lemma SBoxIsAffineInverse(x: bv8, y: bv8)
    requires GfMul(x, y) == 1
    ensures SBox(x) == y ^ ((y << 1) | (y >> 7)) ^ ((y << 2) | (y >> 6)) ^ ((y << 3) | (y >> 5))
                       ^ ((y << 4) | (y >> 4)) ^ 0x63
  {
    if x == 0 {
      ZeroTimes(y, 8);
    }
    hide GfMul, SBox;
    assert x != 0;
    InverseIsInverse(x);
    InverseIsUnique(x, Inverse(x), y);
    AffineUndone(SBox(x));
  }

  lemma InverseExists(x: bv8)
    requires x != 0
    ensures exists y :: GfMul(x, y) == 1
  {
    InverseIsInverse(x);
    Commutes(x, Inverse(x));
  }

  lemma SBoxOfZero()
    ensures SBox(0) == 0x63
  {}
}
