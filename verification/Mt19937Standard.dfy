/** The generator against the text of ISO C++ [rand.eng.mers] and [rand.predef], in numbers: the recurrence and the
    tempering of mt19937 as closed expressions, and the first number drawn under its default seed. */
module Mt19937Standard {
  import opened Mt19937

  // ---------- The recurrence and the tempering ----------

  lemma TimesAIs(y: bv32)
    ensures TimesA(y) == (y >> 1) ^ (if y & 1 != 0 then 0x9908_B0DF else 0)
  {}

  lemma XorAssociates(x: bv32, y: bv32, z: bv32)
    ensures x ^ (y ^ z) == x ^ y ^ z
  {}

  lemma GluedIs(a: bv32, b: bv32)
    ensures Glued(a, b) == (a & 0x8000_0000) | (b & 0x7FFF_FFFF)
  {}

  lemma RecurOf(a: bv32, b: bv32, c: bv32)
    ensures Recur(a, b, c) == Xor(c, TimesA(Glued(a, b)))
  {
    hide TimesA, Glued, Xor;
  }

  lemma RecurExpanded(c: bv32, y: bv32)
    ensures Xor(c, TimesA(y)) == c ^ (y >> 1) ^ (if y & 1 != 0 then 0x9908_B0DF else 0)
  {
    TimesAIs(y);
    XorIs(c, TimesA(y));
    XorAssociates(c, y >> 1, if y & 1 != 0 then 0x9908_B0DF else 0);
    hide *;
  }

  lemma RecurIs(a: bv32, b: bv32, c: bv32, y: bv32)
    requires y == (a & 0x8000_0000) | (b & 0x7FFF_FFFF)
    ensures Recur(a, b, c) == c ^ (y >> 1) ^ (if y & 1 != 0 then 0x9908_B0DF else 0)
  {
    GluedIs(a, b);
    RecurOf(a, b, c);
    RecurExpanded(c, y);
    hide *;
  }

  lemma WordOf(start: seq<bv32>, k: nat)
    requires |start| == 624
    ensures Word(start, k + 624) == Recur(Word(start, k), Word(start, k + 1), Word(start, k + 397))
  {
    hide Recur;
  }

  /** Term k + 624 from the top bit of term k, the other bits of term k + 1, and term k + 397. */
  lemma RecurrenceIs(start: seq<bv32>, k: nat, a: bv32, b: bv32, c: bv32, y: bv32)
    requires |start| == 624
    requires a == Word(start, k) && b == Word(start, k + 1) && c == Word(start, k + 397)
    requires y == (a & 0x8000_0000) | (b & 0x7FFF_FFFF)
    ensures Word(start, k + 624) == c ^ (y >> 1) ^ (if y & 1 != 0 then 0x9908_B0DF else 0)
  {
    WordOf(start, k);
    RecurIs(a, b, c, y);
    hide *;
  }

  /** The first 624 terms are the table. */
  lemma StartIs(start: seq<bv32>, k: nat)
    requires |start| == 624 && k < 624
    ensures Word(start, k) == start[k]
  {}

  lemma ShiftsAre(x: bv32)
    ensures Shr11(x) == x >> 11 && Shr18(x) == x >> 18
  {}

  lemma ShiftSteps(x: bv32)
    ensures Temper1(x) == Xor(x, Shr11(x)) && Temper4(x) == Xor(x, Shr18(x))
  {}

  lemma Temper1Is(x: bv32)
    ensures Temper1(x) == x ^ (x >> 11)
  {
    ShiftsAre(x);
    XorIs(x, x >> 11);
    ShiftSteps(x);
    hide *;
  }

  lemma Temper4Is(x: bv32)
    ensures Temper4(x) == x ^ (x >> 18)
  {
    ShiftsAre(x);
    XorIs(x, x >> 18);
    ShiftSteps(x);
    hide *;
  }

  lemma MaskSteps(x: bv32)
    ensures Temper2(x) == x ^ ((x << 7) & 0x9D2C_5680)
    ensures Temper3(x) == x ^ ((x << 15) & 0xEFC6_0000)
  {}

  lemma FourSteps(w: bv32)
    ensures Temper(w) == Temper4(Temper3(Temper2(Temper1(w))))
  {
    hide Temper1, Temper2, Temper3, Temper4;
  }

  lemma TemperIs(w: bv32, x: bv32, y: bv32, z: bv32)
    requires x == w ^ (w >> 11) && y == x ^ ((x << 7) & 0x9D2C_5680) && z == y ^ ((y << 15) & 0xEFC6_0000)
    ensures Temper(w) == z ^ (z >> 18)
  {
    Temper1Is(w);
    MaskSteps(x);
    MaskSteps(y);
    Temper4Is(z);
    FourSteps(w);
    hide *;
  }

  /** The number drawn for term k, by the four tempering steps of the standard. */
  lemma OutputIs(start: seq<bv32>, k: nat, w: bv32, x: bv32, y: bv32, z: bv32)
    requires |start| == 624 && w == Word(start, k) && x == w ^ (w >> 11)
    requires y == x ^ ((x << 7) & 0x9D2C_5680) && z == y ^ ((y << 15) & 0xEFC6_0000)
    ensures Output(start, k) == z ^ (z >> 18)
  {
    TemperIs(w, x, y, z);
    hide Temper, Word;
  }

  // ---------- Indices as 32-bit numbers ----------

  function Index(i: nat): bv32
    requires i < 0x1_0000_0000
  {
    i as bv32
  }

  function Join(hi: bv8, lo: bv8): bv32 { ((hi as bv32) << 8) | (lo as bv32) }

  function Next(b: bv8): bv8 { b + 1 }

  function ByteNumber(b: bv8): (r: nat)
    ensures r < 256
  {
    b as nat
  }

  function Number(c: bv32): (r: nat)
    ensures r < 0x1_0000_0000
  {
    c as nat
  }

  lemma JoinNumber(hi: bv8, lo: bv8)
    ensures Number(Join(hi, lo)) == ByteNumber(hi) * 256 + ByteNumber(lo)
  {}

  lemma NumberBack(c: bv32)
    ensures Index(Number(c)) == c
  {}

  lemma NextNumber(b: bv8)
    ensures ByteNumber(Next(b)) == if b == 0xff then 0 else ByteNumber(b) + 1
    ensures b == 0xff <==> ByteNumber(b) == 255
    ensures ByteNumber(0) == 0
  {}

  lemma JoinNext(hi: bv8, lo: bv8)
    requires hi != 0xff || lo != 0xff
    ensures Join(if lo == 0xff then Next(hi) else hi, Next(lo)) == Join(hi, lo) + 1
  {}

  lemma {:induction false} ByteOf(n: nat) returns (b: bv8)
    requires n < 256
    ensures ByteNumber(b) == n
  {
    NextNumber(0);
    hide ByteNumber, Next;
    if n == 0 {
      b := 0;
    } else {
      var c := ByteOf(n - 1);
      NextNumber(c);
      b := Next(c);
    }
  }

  lemma IndexNext(i: nat)
    requires i < 0xFFFF
    ensures Index(i + 1) == Index(i) + 1
  {
    hide Index, Join, ByteNumber, Number, Next;
    var hi := ByteOf(i / 256);
    var lo := ByteOf(i % 256);
    NextNumber(hi);
    NextNumber(lo);
    var hi', lo' := if lo == 0xff then Next(hi) else hi, Next(lo);
    JoinNext(hi, lo);
    JoinNumber(hi, lo);
    JoinNumber(hi', lo');
    NumberBack(Join(hi, lo));
    NumberBack(Join(hi', lo'));
  }

  // ---------- The known answer ----------

  /** The seeding recurrence of the standard, for n steps from a word with index i - 1. */
  function Steps(x: bv32, i: bv32, n: nat): bv32
    decreases n
  {
    if n == 0 then x else Steps(Stepped(x, i), i + 1, n - 1)
  }

  lemma WrappedIs(i: nat)
    requires i < 0xFFFF
    ensures Wrapped(i) == Index(i)
  {}

  /** What one step of the seeding does. */
  lemma SteppedIs(x: bv32, i: bv32)
    ensures Stepped(x, i) == 1812433253 * (x ^ (x >> 30)) + i
  {}

  lemma StepIs(x: bv32, i: nat)
    requires i < 0xFFFF
    ensures SeedStep(x, i) == Stepped(x, Index(i))
  {
    WrappedIs(i);
    hide Stepped, Wrapped, Index;
  }

  /** The linear recurrence that fills the table from a seed. */
  lemma SeededIs(seed: bv32, i: nat)
    requires i < 0xFFFF
    ensures Seeded(seed, 0) == seed && (i > 0 ==> Seeded(seed, i) == Stepped(Seeded(seed, i - 1), Index(i)))
  {
    if i > 0 {
      StepIs(Seeded(seed, i - 1), i);
    }
    hide SeedStep, Stepped, Index;
  }

  lemma IndexIs(i: nat)
    requires i < 0xFFFF
    ensures Number(Index(i)) == i
  {
    hide Index, Join, ByteNumber, Number;
    var hi := ByteOf(i / 256);
    var lo := ByteOf(i % 256);
    JoinNumber(hi, lo);
    NumberBack(Join(hi, lo));
  }

  /** The seeding in closed form: 1812433253 times the previous word XORed with its two top bits, plus the index. */
  lemma SeedingIs(seed: bv32, i: nat, x: bv32, index: bv32)
    requires 0 < i < 0xFFFF && x == Seeded(seed, i - 1) && index == Index(i)
    ensures Number(index) == i
    ensures Seeded(seed, i) == 1812433253 * (x ^ (x >> 30)) + index
  {
    IndexIs(i);
    SeededIs(seed, i);
    SteppedIs(x, index);
    hide *;
  }

  lemma StepsNext(x: bv32, i: bv32, n: nat)
    requires n > 0
    ensures Steps(x, i, n) == Steps(Stepped(x, i), i + 1, n - 1)
  {}

  lemma {:induction false} SeededBySteps(seed: bv32, i: nat, n: nat)
    requires i + n < 0xFFFF
    ensures Seeded(seed, i + n) == Steps(Seeded(seed, i), Index(i + 1), n)
    decreases n
  {
    if n > 0 {
      SeededIs(seed, i + 1);
      IndexNext(i + 1);
      StepsNext(Seeded(seed, i), Index(i + 1), n);
      SeededBySteps(seed, i + 1, n - 1);
    } else {
      assert Steps(Seeded(seed, i), Index(i + 1), 0) == Seeded(seed, i);
    }
    hide *;
  }

  lemma Hop(i: nat, n: nat, x: bv32, index: bv32, y: bv32)
    requires i + n < 0xFFFF && Seeded(5489, i) == x && index == Index(i + 1) && Steps(x, index, n) == y
    ensures Seeded(5489, i + n) == y
  {
    SeededBySteps(5489, i, n);
    hide *;
  }

  lemma Steps0()
    ensures Steps(0x00001571, 1, 10) == 0x7b305e70
    ensures Steps(0x7b305e70, 11, 10) == 0xb1c27391
    ensures Steps(0xb1c27391, 21, 10) == 0xc73bce34
    ensures Steps(0xc73bce34, 31, 10) == 0x5f9086c7
    ensures Steps(0x5f9086c7, 41, 10) == 0x0772855c
    ensures Steps(0x0772855c, 51, 10) == 0x4fd212fc
    ensures Steps(0x4fd212fc, 61, 10) == 0xff90227a
    ensures Steps(0xff90227a, 71, 10) == 0x253d5ba7
    ensures Steps(0x253d5ba7, 81, 10) == 0xa916965f
    ensures Steps(0xa916965f, 91, 10) == 0x6d5f3ea9
  {}

  lemma Indices0()
    ensures Index(1) == 1
         && Index(11) == 11
         && Index(21) == 21
         && Index(31) == 31
         && Index(41) == 41
         && Index(51) == 51
         && Index(61) == 61
         && Index(71) == 71
         && Index(81) == 81
         && Index(91) == 91
  {}

  lemma From0()
    requires Seeded(5489, 0) == 0x00001571
    ensures Seeded(5489, 100) == 0x6d5f3ea9
  {
    Steps0();
    Indices0();
    hide *;
    Hop(0, 10, 0x00001571, 1, 0x7b305e70);
    Hop(10, 10, 0x7b305e70, 11, 0xb1c27391);
    Hop(20, 10, 0xb1c27391, 21, 0xc73bce34);
    Hop(30, 10, 0xc73bce34, 31, 0x5f9086c7);
    Hop(40, 10, 0x5f9086c7, 41, 0x0772855c);
    Hop(50, 10, 0x0772855c, 51, 0x4fd212fc);
    Hop(60, 10, 0x4fd212fc, 61, 0xff90227a);
    Hop(70, 10, 0xff90227a, 71, 0x253d5ba7);
    Hop(80, 10, 0x253d5ba7, 81, 0xa916965f);
    Hop(90, 10, 0xa916965f, 91, 0x6d5f3ea9);
  }

  lemma Steps1()
    ensures Steps(0x6d5f3ea9, 101, 10) == 0x7ff85c81
    ensures Steps(0x7ff85c81, 111, 10) == 0x952ce170
    ensures Steps(0x952ce170, 121, 10) == 0xadca933a
    ensures Steps(0xadca933a, 131, 10) == 0x4c9c9621
    ensures Steps(0x4c9c9621, 141, 10) == 0xe5655285
    ensures Steps(0xe5655285, 151, 10) == 0xebc4df9a
    ensures Steps(0xebc4df9a, 161, 10) == 0xc116e2da
    ensures Steps(0xc116e2da, 171, 10) == 0x83238235
    ensures Steps(0x83238235, 181, 10) == 0xd2594aff
    ensures Steps(0xd2594aff, 191, 10) == 0x075ca540
  {}

  lemma Indices1()
    ensures Index(101) == 101
         && Index(111) == 111
         && Index(121) == 121
         && Index(131) == 131
         && Index(141) == 141
         && Index(151) == 151
         && Index(161) == 161
         && Index(171) == 171
         && Index(181) == 181
         && Index(191) == 191
  {}

  lemma From100()
    requires Seeded(5489, 100) == 0x6d5f3ea9
    ensures Seeded(5489, 200) == 0x075ca540
  {
    Steps1();
    Indices1();
    hide *;
    Hop(100, 10, 0x6d5f3ea9, 101, 0x7ff85c81);
    Hop(110, 10, 0x7ff85c81, 111, 0x952ce170);
    Hop(120, 10, 0x952ce170, 121, 0xadca933a);
    Hop(130, 10, 0xadca933a, 131, 0x4c9c9621);
    Hop(140, 10, 0x4c9c9621, 141, 0xe5655285);
    Hop(150, 10, 0xe5655285, 151, 0xebc4df9a);
    Hop(160, 10, 0xebc4df9a, 161, 0xc116e2da);
    Hop(170, 10, 0xc116e2da, 171, 0x83238235);
    Hop(180, 10, 0x83238235, 181, 0xd2594aff);
    Hop(190, 10, 0xd2594aff, 191, 0x075ca540);
  }

  lemma Steps2()
    ensures Steps(0x075ca540, 201, 10) == 0xf11fd24f
    ensures Steps(0xf11fd24f, 211, 10) == 0xe730b398
    ensures Steps(0xe730b398, 221, 10) == 0xb0e34974
    ensures Steps(0xb0e34974, 231, 10) == 0x640a6776
    ensures Steps(0x640a6776, 241, 10) == 0xc51acb18
    ensures Steps(0xc51acb18, 251, 10) == 0xb5b7e721
    ensures Steps(0xb5b7e721, 261, 10) == 0x22fe37d2
    ensures Steps(0x22fe37d2, 271, 10) == 0xb92a6b58
    ensures Steps(0xb92a6b58, 281, 10) == 0x49087160
    ensures Steps(0x49087160, 291, 10) == 0x193ff56c
  {}

  lemma Indices2()
    ensures Index(201) == 201
         && Index(211) == 211
         && Index(221) == 221
         && Index(231) == 231
         && Index(241) == 241
         && Index(251) == 251
         && Index(261) == 261
         && Index(271) == 271
         && Index(281) == 281
         && Index(291) == 291
  {}

  lemma From200()
    requires Seeded(5489, 200) == 0x075ca540
    ensures Seeded(5489, 300) == 0x193ff56c
  {
    Steps2();
    Indices2();
    hide *;
    Hop(200, 10, 0x075ca540, 201, 0xf11fd24f);
    Hop(210, 10, 0xf11fd24f, 211, 0xe730b398);
    Hop(220, 10, 0xe730b398, 221, 0xb0e34974);
    Hop(230, 10, 0xb0e34974, 231, 0x640a6776);
    Hop(240, 10, 0x640a6776, 241, 0xc51acb18);
    Hop(250, 10, 0xc51acb18, 251, 0xb5b7e721);
    Hop(260, 10, 0xb5b7e721, 261, 0x22fe37d2);
    Hop(270, 10, 0x22fe37d2, 271, 0xb92a6b58);
    Hop(280, 10, 0xb92a6b58, 281, 0x49087160);
    Hop(290, 10, 0x49087160, 291, 0x193ff56c);
  }

  lemma Steps3()
    ensures Steps(0x193ff56c, 301, 10) == 0x3a35241a
    ensures Steps(0x3a35241a, 311, 10) == 0xb09a94ce
    ensures Steps(0xb09a94ce, 321, 10) == 0xf3d87315
    ensures Steps(0xf3d87315, 331, 10) == 0x243be596
    ensures Steps(0x243be596, 341, 10) == 0x82816fb2
    ensures Steps(0x82816fb2, 351, 10) == 0xfc9e03a5
    ensures Steps(0xfc9e03a5, 361, 10) == 0x20dfd131
    ensures Steps(0x20dfd131, 371, 10) == 0x3752c73d
    ensures Steps(0x3752c73d, 381, 10) == 0xd9dfa300
    ensures Steps(0xd9dfa300, 391, 7) == 0xbdc68d6c
  {}

  lemma Indices3()
    ensures Index(301) == 301
         && Index(311) == 311
         && Index(321) == 321
         && Index(331) == 331
         && Index(341) == 341
         && Index(351) == 351
         && Index(361) == 361
         && Index(371) == 371
         && Index(381) == 381
         && Index(391) == 391
  {}

  lemma From300()
    requires Seeded(5489, 300) == 0x193ff56c
    ensures Seeded(5489, 397) == 0xbdc68d6c
  {
    Steps3();
    Indices3();
    hide *;
    Hop(300, 10, 0x193ff56c, 301, 0x3a35241a);
    Hop(310, 10, 0x3a35241a, 311, 0xb09a94ce);
    Hop(320, 10, 0xb09a94ce, 321, 0xf3d87315);
    Hop(330, 10, 0xf3d87315, 331, 0x243be596);
    Hop(340, 10, 0x243be596, 341, 0x82816fb2);
    Hop(350, 10, 0x82816fb2, 351, 0xfc9e03a5);
    Hop(360, 10, 0xfc9e03a5, 361, 0x20dfd131);
    Hop(370, 10, 0x20dfd131, 371, 0x3752c73d);
    Hop(380, 10, 0x3752c73d, 381, 0xd9dfa300);
    Hop(390, 7, 0xd9dfa300, 391, 0xbdc68d6c);
  }

  lemma SeededWords()
    ensures Seeded(5489, 0) == 5489 && Seeded(5489, 1) == 1301868182 && Seeded(5489, 397) == 3183906156
  {
    SeededIs(5489, 0);
    SeededIs(5489, 1);
    WrappedIs(1);
    Indices0();
    SteppedIs(5489, 1);
    From0();
    From100();
    From200();
    From300();
    hide *;
  }

  lemma FirstWord(start: seq<bv32>)
    requires |start| == 624 && start[0] == 5489 && start[1] == 1301868182 && start[397] == 3183906156
    ensures Word(start, 624) == 0x9b0a_fa27
  {
    StartIs(start, 0);
    StartIs(start, 1);
    StartIs(start, 397);
    RecurrenceIs(start, 0, 5489, 1301868182, 3183906156, 0x4d98_ee96);
    hide *;
  }

  lemma FirstOutput(start: seq<bv32>)
    requires |start| == 624 && Word(start, 624) == 0x9b0a_fa27
    ensures Output(start, 624) == 3499211612
  {
    OutputIs(start, 624, 0x9b0a_fa27, 0x9b19_9b78, 0x1715_8f78, 0xd091_8f78);
    hide *;
  }

  /** With the default seed 5489 of the standard the first number drawn is 3499211612. */
  lemma KnownAnswer(start: seq<bv32>)
    requires |start| == 624 && forall i: nat | i < 624 :: start[i] == Seeded(5489, i)
    ensures Output(start, 624) == 3499211612
  {
    SeededWords();
    hide *;
    FirstWord(start);
    FirstOutput(start);
  }
}
