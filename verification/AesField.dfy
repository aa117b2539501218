/** Byte arithmetic of AES: the field GF(2^8) of FIPS 197 section 4 and the code's way of computing in it. */
module AesField {
  function Xor(x: bv8, y: bv8): bv8 { x ^ y }

  function XTime(x: bv8): bv8 {
    (x << 1) ^ (((x >> 7) & 1) * 0x1b)
  }

  /** One summand of the code's product macro: a bit of y times a shifted x. */
  function BitTimes(y: bv8, x: bv8): bv8 {
    (y & 1) * x
  }

  /** The code's product macro. It looks at the low five bits of y only. */
  function Multiply(x: bv8, y: bv8): bv8 {
    Xor(Xor(Xor(Xor(
      BitTimes(y, x),
      BitTimes(y >> 1, XTime(x))),
      BitTimes(y >> 2, XTime(XTime(x)))),
      BitTimes(y >> 3, XTime(XTime(XTime(x))))),
      BitTimes(y >> 4, XTime(XTime(XTime(XTime(x))))))
  }

  // ---------- Reference: multiplication of polynomials modulo x^8 + x^4 + x^3 + x + 1 ----------

  /** The product of x and the polynomial made of the low n bits of y. */
  function Product(x: bv8, y: bv8, n: nat): bv8
    decreases n
  {
    if n == 0 then 0
    else Xor(if y & 1 != 0 then x else 0, Product(XTime(x), y >> 1, n - 1))
  }

  function GfMul(x: bv8, y: bv8): bv8 {
    Product(x, y, 8)
  }

  lemma BitTimesSelects(y: bv8, x: bv8)
    ensures BitTimes(y, x) == if y & 1 != 0 then x else 0
  {}

  lemma ShiftsAdd(y: bv8)
    ensures (y >> 1) >> 1 == y >> 2 && (y >> 2) >> 1 == y >> 3 && (y >> 3) >> 1 == y >> 4 && (y >> 4) >> 1 == y >> 5
  {}

  lemma XorRules(x: bv8, y: bv8, z: bv8)
    ensures Xor(x, Xor(y, z)) == Xor(Xor(x, y), z)
    ensures Xor(x, 0) == x == Xor(0, x)
    ensures Xor(x, y) == Xor(y, x)
    ensures Xor(x, x) == 0
  {}

  /** One step of the reference product, with the code's way of selecting by a bit. */
  lemma ProductStep(x: bv8, y: bv8, n: nat)
    requires n > 0
    ensures Product(x, y, n) == Xor(BitTimes(y, x), Product(XTime(x), y >> 1, n - 1))
  {
    hide Xor;
    hide XTime;
    hide BitTimes;
    BitTimesSelects(y, x);
  }

  /** The macro is the field product cut off after five bits; what it drops is the rest of y. */
  lemma MultiplyIsCutProduct(x: bv8, y: bv8)
    ensures var x5 := XTime(XTime(XTime(XTime(XTime(x)))));
            GfMul(x, y) == Xor(Multiply(x, y), Product(x5, y >> 5, 3))
  {
    hide Xor;
    hide XTime;
    hide BitTimes;
    hide Product;
    ShiftsAdd(y);
    var x1 := XTime(x);
    var x2 := XTime(x1);
    var x3 := XTime(x2);
    var x4 := XTime(x3);
    var x5 := XTime(x4);
    var p := Product(x5, y >> 5, 3);
    var b0, b1, b2, b3, b4 :=
      BitTimes(y, x), BitTimes(y >> 1, x1), BitTimes(y >> 2, x2), BitTimes(y >> 3, x3), BitTimes(y >> 4, x4);
    ProductStep(x, y, 8);
    ProductStep(x1, y >> 1, 7);
    ProductStep(x2, y >> 2, 6);
    ProductStep(x3, y >> 3, 5);
    ProductStep(x4, y >> 4, 4);
    XorRules(b3, b4, p);
    XorRules(b2, Xor(b3, b4), p);
    XorRules(b1, Xor(b2, Xor(b3, b4)), p);
    XorRules(b0, Xor(b1, Xor(b2, Xor(b3, b4))), p);
    XorRules(b2, b3, b4);
    XorRules(b1, Xor(b2, b3), b4);
    XorRules(b1, b2, b3);
    XorRules(b0, Xor(Xor(b1, b2), b3), b4);
    XorRules(b0, Xor(b1, b2), b3);
    XorRules(b0, b1, b2);
  }

  lemma {:induction false} ProductWithZero(x: bv8, n: nat)
    ensures Product(x, 0, n) == 0
    decreases n
  {
    if n > 0 {
      ProductWithZero(XTime(x), n - 1);
    }
  }

  lemma HighBitsSurvive(z: bv8)
    requires 0 < z < 8
    ensures Product(0x20, z, 3) != 0
  {
    hide Xor;
    assert XTime(0x20) == 0x40 && XTime(0x40) == 0x80;
    ShiftsAdd(z);
    ProductStep(0x20, z, 3);
    ProductStep(0x40, z >> 1, 2);
    ProductStep(0x80, z >> 2, 1);
    XorRules(BitTimes(z >> 2, 0x80), 0, 0);
    ThreeBits(z);
  }

  lemma ThreeBits(z: bv8)
    requires 0 < z < 8
    ensures Xor(BitTimes(z, 0x20), Xor(BitTimes(z >> 1, 0x40), BitTimes(z >> 2, 0x80))) != 0
  {}

  lemma TopThreeBits(y: bv8)
    ensures y >> 5 < 8 && (y >> 5 == 0 <==> y < 0x20)
  {}

  lemma OneShiftedFiveTimes()
    ensures XTime(XTime(XTime(XTime(XTime(1))))) == 0x20
  {}

  lemma XorWithNonzero(x: bv8, p: bv8)
    ensures x == Xor(x, p) <==> p == 0
  {}

  /** The macro multiplies in GF(2^8) exactly for the factors that fit in five bits. Every factor the
      code passes to it does. */
  lemma MultiplyIsFieldProduct(y: bv8)
    ensures (forall x: bv8 :: Multiply(x, y) == GfMul(x, y)) <==> y < 0x20
  {
    hide Xor;
    hide Multiply;
    hide Product;
    TopThreeBits(y);
    if y < 0x20 {
      forall x: bv8
        ensures Multiply(x, y) == GfMul(x, y)
      {
        MultiplyIsCutProduct(x, y);
        ProductWithZero(XTime(XTime(XTime(XTime(XTime(x))))), 3);
        XorRules(Multiply(x, y), 0, 0);
      }
    } else {
      MultiplyIsCutProduct(1, y);
      OneShiftedFiveTimes();
      HighBitsSurvive(y >> 5);
      XorWithNonzero(Multiply(1, y), Product(0x20, y >> 5, 3));
      assert Multiply(1, y) != GfMul(1, y);
    }
  }

  // ---------- Linearity ----------

  function Xor4(w: bv8, x: bv8, y: bv8, z: bv8): bv8 {
    Xor(Xor(Xor(w, x), y), z)
  }

  lemma XTimeLinear(x: bv8, y: bv8)
    ensures XTime(Xor(x, y)) == Xor(XTime(x), XTime(y))
  {}

  lemma BitTimesLinear(b: bv8, x: bv8, y: bv8)
    ensures BitTimes(b, Xor(x, y)) == Xor(BitTimes(b, x), BitTimes(b, y))
  {
    hide Xor;
    hide BitTimes;
    BitTimesSelects(b, x);
    BitTimesSelects(b, y);
    BitTimesSelects(b, Xor(x, y));
    XorRules(0, 0, 0);
  }

  lemma PairsRegroup(a: bv8, b: bv8, c: bv8, d: bv8)
    ensures Xor(Xor(a, b), Xor(c, d)) == Xor(Xor(a, c), Xor(b, d))
  {
    hide Xor;
    XorRules(a, b, Xor(c, d));
    XorRules(b, c, d);
    XorRules(b, c, 0);
    XorRules(c, b, d);
    XorRules(a, c, Xor(b, d));
  }

  lemma MultiplyLinear(x: bv8, y: bv8, k: bv8)
    ensures Multiply(Xor(x, y), k) == Xor(Multiply(x, k), Multiply(y, k))
  {
    hide Xor;
    hide XTime;
    hide BitTimes;
    var x1, y1 := XTime(x), XTime(y);
    var x2, y2 := XTime(x1), XTime(y1);
    var x3, y3 := XTime(x2), XTime(y2);
    var x4, y4 := XTime(x3), XTime(y3);
    XTimeLinear(x, y);
    XTimeLinear(x1, y1);
    XTimeLinear(x2, y2);
    XTimeLinear(x3, y3);
    BitTimesLinear(k, x, y);
    BitTimesLinear(k >> 1, x1, y1);
    BitTimesLinear(k >> 2, x2, y2);
    BitTimesLinear(k >> 3, x3, y3);
    BitTimesLinear(k >> 4, x4, y4);
    var p0, q0 := BitTimes(k, x), BitTimes(k, y);
    var p1, q1 := BitTimes(k >> 1, x1), BitTimes(k >> 1, y1);
    var p2, q2 := BitTimes(k >> 2, x2), BitTimes(k >> 2, y2);
    var p3, q3 := BitTimes(k >> 3, x3), BitTimes(k >> 3, y3);
    PairsRegroup(p0, q0, p1, q1);
    PairsRegroup(Xor(p0, p1), Xor(q0, q1), p2, q2);
    PairsRegroup(Xor(Xor(p0, p1), p2), Xor(Xor(q0, q1), q2), p3, q3);
    PairsRegroup(Xor(Xor(Xor(p0, p1), p2), p3), Xor(Xor(Xor(q0, q1), q2), q3),
                 BitTimes(k >> 4, x4), BitTimes(k >> 4, y4));
  }

  lemma MultiplyLinear4(w: bv8, x: bv8, y: bv8, z: bv8, k: bv8)
    ensures Multiply(Xor4(w, x, y, z), k)
         == Xor4(Multiply(w, k), Multiply(x, k), Multiply(y, k), Multiply(z, k))
  {
    hide Xor;
    hide Multiply;
    MultiplyLinear(w, x, k);
    MultiplyLinear(Xor(w, x), y, k);
    MultiplyLinear(Xor(Xor(w, x), y), z, k);
  }

  // ---------- Columns ----------

  /** One byte of MixColumns in FIPS 197 section 5.1.3: row (02 03 01 01) of the circulant matrix. */
  function MixByte(a: bv8, b: bv8, c: bv8, d: bv8): bv8 {
    Xor4(GfMul(a, 0x02), GfMul(b, 0x03), c, d)
  }

  /** One byte of InvMixColumns in FIPS 197 section 5.3.3: row (0e 0b 0d 09). */
  function InvMixByte(a: bv8, b: bv8, c: bv8, d: bv8): bv8 {
    Xor4(GfMul(a, 0x0e), GfMul(b, 0x0b), GfMul(c, 0x0d), GfMul(d, 0x09))
  }

  function Times3(x: bv8): bv8 {
    Xor(XTime(x), x)
  }

  // A byte times a polynomial of degree at most four, by its coefficients.
  function Pick(e: bool, x: bv8): bv8 {
    if e then x else 0
  }

  function Poly(e0: bool, e1: bool, e2: bool, e3: bool, e4: bool, x: bv8): bv8 {
    Xor(Xor(Xor(Xor(
      Pick(e0, x),
      Pick(e1, XTime(x))),
      Pick(e2, XTime(XTime(x)))),
      Pick(e3, XTime(XTime(XTime(x))))),
      Pick(e4, XTime(XTime(XTime(XTime(x))))))
  }

  lemma PickXor(e: bool, f: bool, x: bv8)
    ensures Xor(Pick(e, x), Pick(f, x)) == Pick(e != f, x)
  {
    hide Xor;
    XorRules(x, x, x);
    XorRules(0, 0, 0);
  }

  lemma PolyXor(e0: bool, e1: bool, e2: bool, e3: bool, e4: bool,
                f0: bool, f1: bool, f2: bool, f3: bool, f4: bool, x: bv8)
    ensures Xor(Poly(e0, e1, e2, e3, e4, x), Poly(f0, f1, f2, f3, f4, x))
         == Poly(e0 != f0, e1 != f1, e2 != f2, e3 != f3, e4 != f4, x)
  {
    hide Xor;
    hide Pick;
    hide XTime;
    var x1 := XTime(x);
    var x2 := XTime(x1);
    var x3 := XTime(x2);
    var x4 := XTime(x3);
    PickXor(e0, f0, x);
    PickXor(e1, f1, x1);
    PickXor(e2, f2, x2);
    PickXor(e3, f3, x3);
    PickXor(e4, f4, x4);
    var p1, q1 := Xor(Pick(e0, x), Pick(e1, x1)), Xor(Pick(f0, x), Pick(f1, x1));
    var p2, q2 := Xor(p1, Pick(e2, x2)), Xor(q1, Pick(f2, x2));
    var p3, q3 := Xor(p2, Pick(e3, x3)), Xor(q2, Pick(f3, x3));
    PairsRegroup(Pick(e0, x), Pick(e1, x1), Pick(f0, x), Pick(f1, x1));
    PairsRegroup(p1, Pick(e2, x2), q1, Pick(f2, x2));
    PairsRegroup(p2, Pick(e3, x3), q2, Pick(f3, x3));
    PairsRegroup(p3, Pick(e4, x4), q3, Pick(f4, x4));
  }

  /** The macro, read off the bits of the factor. */
  lemma MultiplyIsPoly(x: bv8, k: bv8)
    ensures Multiply(x, k)
         == Poly(k & 1 != 0, (k >> 1) & 1 != 0, (k >> 2) & 1 != 0, (k >> 3) & 1 != 0, (k >> 4) & 1 != 0, x)
  {
    hide Xor;
    hide XTime;
    hide BitTimes;
    BitTimesSelects(k, x);
    BitTimesSelects(k >> 1, XTime(x));
    BitTimesSelects(k >> 2, XTime(XTime(x)));
    BitTimesSelects(k >> 3, XTime(XTime(XTime(x))));
    BitTimesSelects(k >> 4, XTime(XTime(XTime(XTime(x)))));
  }

  lemma PolyOfXTime(e0: bool, e1: bool, e2: bool, e3: bool, x: bv8)
    ensures Poly(e0, e1, e2, e3, false, XTime(x)) == Poly(false, e0, e1, e2, e3, x)
    ensures Poly(true, false, false, false, false, x) == x
    ensures Poly(false, true, false, false, false, x) == XTime(x)
    ensures Poly(true, true, false, false, false, x) == Times3(x)
    ensures Poly(false, false, false, false, false, x) == 0
  {
    hide Xor;
    hide XTime;
    XorRules(0, 0, 0);
    XorRules(x, XTime(x), 0);
    XorRules(XTime(x), 0, 0);
    XorRules(Xor(x, XTime(x)), 0, 0);
    XorRules(Pick(e0, XTime(x)), 0, 0);
    XorRules(Poly(e0, e1, e2, e3, false, XTime(x)), 0, 0);
    XorRules(Xor(Xor(Xor(Pick(e0, XTime(x)), Pick(e1, XTime(XTime(x)))), Pick(e2, XTime(XTime(XTime(x))))),
                 Pick(e3, XTime(XTime(XTime(XTime(x)))))), 0, 0);
  }

  lemma MultiplyByConstants(x: bv8)
    ensures Multiply(x, 0x02) == Poly(false, true, false, false, false, x)
    ensures Multiply(x, 0x03) == Poly(true, true, false, false, false, x)
    ensures Multiply(x, 0x09) == Poly(true, false, false, true, false, x)
    ensures Multiply(x, 0x0b) == Poly(true, true, false, true, false, x)
    ensures Multiply(x, 0x0d) == Poly(true, false, true, true, false, x)
    ensures Multiply(x, 0x0e) == Poly(false, true, true, true, false, x)
  {
    hide Multiply;
    hide Poly;
    MultiplyIsPoly(x, 0x02);
    MultiplyIsPoly(x, 0x03);
    MultiplyIsPoly(x, 0x09);
    MultiplyIsPoly(x, 0x0b);
    MultiplyIsPoly(x, 0x0d);
    MultiplyIsPoly(x, 0x0e);
  }

  lemma SmallProducts(x: bv8)
    ensures GfMul(x, 0x02) == XTime(x)
    ensures GfMul(x, 0x03) == Times3(x)
  {
    hide GfMul;
    hide Multiply;
    hide Poly;
    hide Xor;
    MultiplyIsFieldProduct(0x02);
    MultiplyIsFieldProduct(0x03);
    assert Multiply(x, 0x02) == GfMul(x, 0x02) && Multiply(x, 0x03) == GfMul(x, 0x03);
    MultiplyByConstants(x);
    PolyOfXTime(false, false, false, false, x);
  }

  lemma InverseProducts(x: bv8)
    ensures GfMul(x, 0x0e) == Multiply(x, 0x0e)
    ensures GfMul(x, 0x0b) == Multiply(x, 0x0b)
    ensures GfMul(x, 0x0d) == Multiply(x, 0x0d)
    ensures GfMul(x, 0x09) == Multiply(x, 0x09)
  {
    hide GfMul;
    hide Multiply;
    MultiplyIsFieldProduct(0x0e);
    MultiplyIsFieldProduct(0x0b);
    MultiplyIsFieldProduct(0x0d);
    MultiplyIsFieldProduct(0x09);
  }

  /** The code's MixColumns computes each byte from its neighbour and the sum of the whole column. */
  lemma CodeMixByte(a: bv8, b: bv8, c: bv8, d: bv8)
    ensures Xor(a, Xor(XTime(Xor(a, b)), Xor4(a, b, c, d))) == MixByte(a, b, c, d)
  {
    hide XTime;
    hide GfMul;
    SmallProducts(a);
    SmallProducts(b);
    XTimeLinear(a, b);
    CodeMixSum(a, b, c, d, XTime(a), XTime(b));
  }

  lemma CodeMixSum(a: bv8, b: bv8, c: bv8, d: bv8, a1: bv8, b1: bv8)
    ensures Xor(a, Xor(Xor(a1, b1), Xor4(a, b, c, d))) == Xor4(a1, Xor(b1, b), c, d)
  {
    hide Xor;
    var bc := Xor(b, c);
    var p, q := Xor(a1, b1), Xor(bc, d);
    XorRules(a, b, c);
    XorRules(a, bc, d);
    assert Xor4(a, b, c, d) == Xor(a, q);
    XorRules(a, p, Xor(a, q));
    XorRules(a, p, 0);
    XorRules(p, a, Xor(a, q));
    XorRules(a, a, q);
    XorRules(q, 0, 0);
    XorRules(p, bc, d);
    XorRules(p, b, c);
    XorRules(a1, b1, b);
  }

  /** The four ways one input byte enters an output byte of InvMixColumns after MixColumns: they leave
      the byte itself in its own place and cancel in the three others. */
  lemma Coefficients(x: bv8)
    ensures Xor4(Multiply(XTime(x), 0x0e), Multiply(x, 0x0b), Multiply(x, 0x0d), Multiply(Times3(x), 0x09)) == x
    ensures Xor4(Multiply(Times3(x), 0x0e), Multiply(XTime(x), 0x0b), Multiply(x, 0x0d), Multiply(x, 0x09)) == 0
    ensures Xor4(Multiply(x, 0x0e), Multiply(Times3(x), 0x0b), Multiply(XTime(x), 0x0d), Multiply(x, 0x09)) == 0
    ensures Xor4(Multiply(x, 0x0e), Multiply(x, 0x0b), Multiply(Times3(x), 0x0d), Multiply(XTime(x), 0x09)) == 0
  {
    hide Xor;
    hide XTime;
    hide Multiply;
    hide Poly;
    var T, F := true, false;
    ShiftedProducts(x);
    MultiplyByConstants(x);
    PolyOfXTime(F, F, F, F, x);
    PolyXor(F, F, T, T, T, T, T, F, T, F, x);
    PolyXor(T, T, T, F, T, T, F, T, T, F, x);
    PolyXor(F, T, F, T, T, T, T, F, T, T, x);
    PolyXor(F, T, F, F, T, F, T, T, F, T, x);
    PolyXor(F, F, T, F, F, T, F, T, T, F, x);
    PolyXor(T, F, F, T, F, T, F, F, T, F, x);
    PolyXor(F, T, T, T, F, T, F, T, T, T, x);
    PolyXor(T, T, F, F, T, F, T, F, T, T, x);
    PolyXor(T, F, F, T, F, T, F, F, T, F, x);
    PolyXor(F, T, T, T, F, T, T, F, T, F, x);
    PolyXor(T, F, T, F, F, T, T, T, F, T, x);
    PolyXor(F, T, F, F, T, F, T, F, F, T, x);
  }

  /** The products of x times {02} and of x times {03} with the four factors of InvMixColumns. */
  lemma ShiftedProducts(x: bv8)
    ensures Multiply(XTime(x), 0x0e) == Poly(false, false, true, true, true, x)
    ensures Multiply(XTime(x), 0x0b) == Poly(false, true, true, false, true, x)
    ensures Multiply(XTime(x), 0x0d) == Poly(false, true, false, true, true, x)
    ensures Multiply(XTime(x), 0x09) == Poly(false, true, false, false, true, x)
    ensures Multiply(Times3(x), 0x0e) == Poly(false, true, false, false, true, x)
    ensures Multiply(Times3(x), 0x0b) == Poly(true, false, true, true, true, x)
    ensures Multiply(Times3(x), 0x0d) == Poly(true, true, true, false, true, x)
    ensures Multiply(Times3(x), 0x09) == Poly(true, true, false, true, true, x)
  {
    hide Xor;
    hide XTime;
    hide Multiply;
    hide Poly;
    var T, F := true, false;
    MultiplyByConstants(x);
    MultiplyByConstants(XTime(x));
    PolyOfXTime(F, T, T, T, x);
    PolyOfXTime(T, T, F, T, x);
    PolyOfXTime(T, F, T, T, x);
    PolyOfXTime(T, F, F, T, x);
    MultiplyLinear(XTime(x), x, 0x0e);
    MultiplyLinear(XTime(x), x, 0x0b);
    MultiplyLinear(XTime(x), x, 0x0d);
    MultiplyLinear(XTime(x), x, 0x09);
    PolyXor(F, F, T, T, T, F, T, T, T, F, x);
    PolyXor(F, T, T, F, T, T, T, F, T, F, x);
    PolyXor(F, T, F, T, T, T, F, T, T, F, x);
    PolyXor(F, T, F, F, T, T, F, F, T, F, x);
  }

  lemma Xor4Pairs(a: bv8, b: bv8, c: bv8, d: bv8, e: bv8, f: bv8, g: bv8, h: bv8)
    ensures Xor(Xor4(a, b, c, d), Xor4(e, f, g, h)) == Xor4(Xor(a, e), Xor(b, f), Xor(c, g), Xor(d, h))
  {
    hide Xor;
    PairsRegroup(a, b, e, f);
    PairsRegroup(Xor(a, b), c, Xor(e, f), g);
    PairsRegroup(Xor(Xor(a, b), c), d, Xor(Xor(e, f), g), h);
  }

  /** Adding up four sums of four bytes row by row or column by column is the same. */
  lemma Transpose(a0: bv8, a1: bv8, a2: bv8, a3: bv8, b0: bv8, b1: bv8, b2: bv8, b3: bv8,
                  c0: bv8, c1: bv8, c2: bv8, c3: bv8, d0: bv8, d1: bv8, d2: bv8, d3: bv8)
    ensures Xor4(Xor4(a0, a1, a2, a3), Xor4(b0, b1, b2, b3), Xor4(c0, c1, c2, c3), Xor4(d0, d1, d2, d3))
         == Xor4(Xor4(a0, b0, c0, d0), Xor4(a1, b1, c1, d1), Xor4(a2, b2, c2, d2), Xor4(a3, b3, c3, d3))
  {
    hide Xor;
    Xor4Pairs(a0, a1, a2, a3, b0, b1, b2, b3);
    Xor4Pairs(Xor(a0, b0), Xor(a1, b1), Xor(a2, b2), Xor(a3, b3), c0, c1, c2, c3);
    Xor4Pairs(Xor(Xor(a0, b0), c0), Xor(Xor(a1, b1), c1), Xor(Xor(a2, b2), c2), Xor(Xor(a3, b3), c3), d0, d1, d2, d3);
  }

  lemma Xor4Rotates(a: bv8, b: bv8, c: bv8, d: bv8)
    ensures Xor4(a, b, c, d) == Xor4(d, a, b, c) == Xor4(c, d, a, b) == Xor4(b, c, d, a)
  {
    hide Xor;
    PairsRegroup(a, b, c, d);
    XorRules(a, b, c);
    XorRules(Xor(Xor(a, b), c), d, 0);
    XorRules(d, a, b);
    XorRules(d, Xor(a, b), c);
    XorRules(Xor(Xor(d, a), b), c, 0);
    XorRules(c, Xor(d, a), b);
    XorRules(c, d, a);
    XorRules(Xor(Xor(c, d), a), b, 0);
    XorRules(b, Xor(c, d), a);
    XorRules(b, c, d);
  }

  lemma MixByteIsXor4(a: bv8, b: bv8, c: bv8, d: bv8)
    ensures MixByte(a, b, c, d) == Xor4(XTime(a), Times3(b), c, d)
  {
    hide GfMul;
    hide Xor4;
    hide XTime;
    hide Times3;
    SmallProducts(a);
    SmallProducts(b);
  }

  lemma InvMixByteIsXor4(a: bv8, b: bv8, c: bv8, d: bv8)
    ensures InvMixByte(a, b, c, d)
         == Xor4(Multiply(a, 0x0e), Multiply(b, 0x0b), Multiply(c, 0x0d), Multiply(d, 0x09))
  {
    hide GfMul;
    hide Xor4;
    hide Multiply;
    InverseProducts(a);
    InverseProducts(b);
    InverseProducts(c);
    InverseProducts(d);
  }

  /** A product of one mixed byte, spread over the four bytes that were mixed. */
  lemma ProductOfMixed(a: bv8, b: bv8, c: bv8, d: bv8, k: bv8)
    ensures Multiply(MixByte(a, b, c, d), k)
         == Xor4(Multiply(XTime(a), k), Multiply(Times3(b), k), Multiply(c, k), Multiply(d, k))
  {
    hide Multiply;
    hide Xor4;
    hide MixByte;
    MixByteIsXor4(a, b, c, d);
    MultiplyLinear4(XTime(a), Times3(b), c, d, k);
  }

  /** InvMixColumns undoes MixColumns on one byte of a column; the other three follow by rotation. */
  lemma MixThenInvMix(a: bv8, b: bv8, c: bv8, d: bv8)
    ensures InvMixByte(MixByte(a, b, c, d), MixByte(b, c, d, a), MixByte(c, d, a, b), MixByte(d, a, b, c)) == a
  {
    hide Multiply;
    hide Xor4;
    hide MixByte;
    hide InvMixByte;
    hide XTime;
    hide Times3;
    InvMixByteIsXor4(MixByte(a, b, c, d), MixByte(b, c, d, a), MixByte(c, d, a, b), MixByte(d, a, b, c));
    ProductOfMixed(a, b, c, d, 0x0e);
    ProductOfMixed(b, c, d, a, 0x0b);
    ProductOfMixed(c, d, a, b, 0x0d);
    ProductOfMixed(d, a, b, c, 0x09);
    var a2, b2, c2, d2 := XTime(a), XTime(b), XTime(c), XTime(d);
    var a3, b3, c3, d3 := Times3(a), Times3(b), Times3(c), Times3(d);
    Xor4Rotates(Multiply(b2, 0x0b), Multiply(c3, 0x0b), Multiply(d, 0x0b), Multiply(a, 0x0b));
    Xor4Rotates(Multiply(c2, 0x0d), Multiply(d3, 0x0d), Multiply(a, 0x0d), Multiply(b, 0x0d));
    Xor4Rotates(Multiply(d2, 0x09), Multiply(a3, 0x09), Multiply(b, 0x09), Multiply(c, 0x09));
    Transpose(Multiply(a2, 0x0e), Multiply(b3, 0x0e), Multiply(c, 0x0e), Multiply(d, 0x0e),
              Multiply(a, 0x0b), Multiply(b2, 0x0b), Multiply(c3, 0x0b), Multiply(d, 0x0b),
              Multiply(a, 0x0d), Multiply(b, 0x0d), Multiply(c2, 0x0d), Multiply(d3, 0x0d),
              Multiply(a3, 0x09), Multiply(b, 0x09), Multiply(c, 0x09), Multiply(d2, 0x09));
    Coefficients(a);
    Coefficients(b);
    Coefficients(c);
    Coefficients(d);
    Xor4Zeros(a);
  }

  lemma Xor4Zeros(a: bv8)
    ensures Xor4(a, 0, 0, 0) == a
  {
    XorRules(a, 0, 0);
  }
}
