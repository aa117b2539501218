/** The simulator's random number generator: the in-place MT19937 of cherrysim/MersenneTwister.cpp
    against the order-624 recurrence of ISO C++ [rand.eng.mers]. */
module Mt19937 {
  import opened Results

  const N := 624
  const M := 397
  const MATRIX_A: bv32 := 0x9908_B0DF
  const MASK_UPPER: bv32 := 0x8000_0000
  const MASK_LOWER: bv32 := 0x7FFF_FFFF
  const MASK_B: bv32 := 0x9D2C_5680
  const MASK_C: bv32 := 0xEFC6_0000

  type U32 = x: int | 0 <= x < 0x1_0000_0000

  datatype RngError = IllegalState | IllegalArgument | DivisionByZero

  // ---------- Reference: the recurrence and the tempering of the standard ----------

  /** One term of the recurrence from the terms 624, 623 and 227 places back. */
  function Recur(x624: bv32, x623: bv32, x227: bv32): bv32 {
    Xor(x227, TimesA(Glued(x624, x623)))
  }

  /** The top bit of one term and the other bits of the next. */
  function Glued(cur: bv32, next: bv32): bv32 {
    (cur & MASK_UPPER) | (next & MASK_LOWER)
  }

  /** The twist: a 32-bit row vector times the companion matrix over GF(2) whose last row is MATRIX_A. */
  function TimesA(y: bv32): bv32 {
    if y & 1 != 0 then (y >> 1) ^ MATRIX_A else y >> 1
  }

  /** Term k of the stream that starts with the 624 words of `start`. */
  function Word(start: seq<bv32>, k: nat): bv32
    requires |start| == N
  {
    if k < N then start[k] else Recur(Word(start, k - N), Word(start, k - N + 1), Word(start, k - N + M))
  }

  function Xor(x: bv32, y: bv32): bv32 { x ^ y }
  function Shr11(x: bv32): bv32 { x >> 11 }
  function Shr18(x: bv32): bv32 { x >> 18 }
  function Shr22(x: bv32): bv32 { x >> 22 }

  function Temper1(x: bv32): bv32 { Xor(x, Shr11(x)) }
  function Temper2(x: bv32): bv32 { x ^ ((x << 7) & MASK_B) }
  function Temper3(x: bv32): bv32 { x ^ ((x << 15) & MASK_C) }
  function Temper4(x: bv32): bv32 { Xor(x, Shr18(x)) }
  function Temper(x: bv32): bv32 { Temper4(Temper3(Temper2(Temper1(x)))) }

  /** What the k-th raw word of the stream looks like to a caller. */
  function Output(start: seq<bv32>, k: nat): bv32
    requires |start| == N
  {
    Temper(Word(start, k))
  }

  // ---------- Tempering loses nothing ----------

  lemma XorIs(x: bv32, y: bv32)
    ensures Xor(x, y) == x ^ y
  {}

  lemma XorTelescopes(x: bv32, a: bv32, b: bv32)
    ensures Xor(Xor(Xor(x, a), Xor(a, b)), b) == x
    ensures Xor(Xor(x, a), a) == x
  {}

  lemma ShiftedXor11(x: bv32, y: bv32)
    ensures Shr11(Xor(x, y)) == Xor(Shr11(x), Shr11(y))
  {}

  lemma ShiftedXor18(x: bv32, y: bv32)
    ensures Shr18(Xor(x, y)) == Xor(Shr18(x), Shr18(y))
  {}

  lemma ShiftedXor22(x: bv32, y: bv32)
    ensures Shr22(Xor(x, y)) == Xor(Shr22(x), Shr22(y))
  {}

  lemma ShiftedTwice(x: bv32)
    ensures Shr11(Shr11(x)) == Shr22(x)
    ensures Shr18(Shr18(x)) == Shr22(Shr11(x)) == 0
    ensures Xor(x, 0) == x
  {}

  /** XORing a word with its own high bits moved down is undone by doing it again until they run out. */
  lemma Temper1Undone(x: bv32)
    ensures var t := Temper1(x); Xor(Xor(t, Shr11(t)), Shr22(t)) == x
  {
    hide Xor;
    hide Shr11;
    hide Shr22;
    ShiftedXor11(x, Shr11(x));
    ShiftedXor22(x, Shr11(x));
    ShiftedTwice(x);
    ShiftedTwice(Shr22(x));
    XorTelescopes(x, Shr11(x), Shr22(x));
  }

  lemma Temper4Undone(x: bv32)
    ensures var t := Temper4(x); Xor(t, Shr18(t)) == x
  {
    hide Xor;
    hide Shr18;
    ShiftedXor18(x, Shr18(x));
    ShiftedTwice(x);
    ShiftedTwice(Shr18(x));
    XorTelescopes(x, Shr18(x), 0);
  }

  lemma Temper2Injective(x: bv32, y: bv32)
    requires Temper2(x) == Temper2(y)
    ensures x == y
  {}

  lemma Temper3Injective(x: bv32, y: bv32)
    requires Temper3(x) == Temper3(y)
    ensures x == y
  {}

  /** Equal draws come from equal raw words: the four tempering steps form a bijection. */
  lemma TemperInjective(x: bv32, y: bv32)
    requires Temper(x) == Temper(y)
    ensures x == y
  {
    hide Temper1;
    hide Temper2;
    hide Temper3;
    hide Temper4;
    hide Xor;
    hide Shr11;
    hide Shr18;
    hide Shr22;
    var x1, y1 := Temper1(x), Temper1(y);
    var x2, y2 := Temper2(x1), Temper2(y1);
    Temper4Undone(Temper3(x2));
    Temper4Undone(Temper3(y2));
    Temper3Injective(x2, y2);
    Temper2Injective(x1, y1);
    Temper1Undone(x);
    Temper1Undone(y);
  }

  /** Draw j after position p of one stream equals draw j after position q of the other. */
  ghost predicate SameOutput(s: seq<bv32>, p: nat, t: seq<bv32>, q: nat, j: nat)
    requires |s| == N && |t| == N
  {
    Output(s, p + j) == Output(t, q + j)
  }

  /** Two generators that agree on 624 draws in a row, at whatever positions, agree on every later
      draw: a window of 624 draws carries the whole state. */
  lemma {:induction false} WindowDeterminesFuture(s: seq<bv32>, p: nat, t: seq<bv32>, q: nat, k: nat)
    requires |s| == N && |t| == N
    requires forall j :: 0 <= j < N ==> SameOutput(s, p, t, q, j)
    ensures SameOutput(s, p, t, q, k)
    ensures Word(s, p + k) == Word(t, q + k)
    decreases k
  {
    if k < N {
      assert SameOutput(s, p, t, q, k);
      TemperInjective(Word(s, p + k), Word(t, q + k));
    } else {
      WindowDeterminesFuture(s, p, t, q, k - N);
      WindowDeterminesFuture(s, p, t, q, k - N + 1);
      WindowDeterminesFuture(s, p, t, q, k - N + M);
    }
  }

  // ---------- The generator ----------

  /** The masked halves do not overlap, so the code's addition is the standard's concatenation. */
  lemma HalvesDoNotOverlap(a: bv32, b: bv32)
    ensures (a & MASK_UPPER) + (b & MASK_LOWER) == (a & MASK_UPPER) | (b & MASK_LOWER)
  {}

  /** What the code XORs into a word, built from its neighbour by addition. */
  function Twisted(cur: bv32, next: bv32): bv32 {
    TimesA((cur & MASK_UPPER) + (next & MASK_LOWER))
  }

  lemma TwistStep(cur: bv32, next: bv32, far: bv32)
    ensures far ^ Twisted(cur, next) == Recur(cur, next, far)
  {
    hide TimesA;
    HalvesDoNotOverlap(cur, next);
  }

  /** The table of 624 words SetSeed leaves before the warm-up: the linear seeding recurrence, XORed
      with the constants written out in the source (here any 624 of them). */
  function Seeded(seed: bv32, i: nat): bv32 {
    if i == 0 then seed
    else SeedStep(Seeded(seed, i - 1), i)
  }

  function SeedStep(prev: bv32, i: nat): bv32 {
    Stepped(prev, Wrapped(i))
  }

  function Stepped(x: bv32, i: bv32): bv32 { 1812433253 * (x ^ (x >> 30)) + i }

  function Wrapped(i: nat): bv32 { (i % 0x1_0000_0000) as bv32 }

  /** In the middle of a twist: the words before index i are the new ones, the others still the old ones. */
  ghost predicate PartlyTwisted(mt: seq<bv32>, start: seq<bv32>, base: nat, i: nat)
    requires |start| == N
  {
    && |mt| == N && i <= N
    && (forall j :: 0 <= j < i ==> mt[j] == Word(start, base + N + j))
    && (forall j :: i <= j < N ==> mt[j] == Word(start, base + j))
  }

  lemma PartlyTwistedStep(before: seq<bv32>, after: seq<bv32>, start: seq<bv32>, base: nat, i: nat)
    requires |start| == N && PartlyTwisted(before, start, base, i) && i < N && |after| == N
    requires after[i] == Recur(before[i], before[(i + 1) % N], before[(i + M) % N])
    requires forall j :: 0 <= j < N && j != i ==> after[j] == before[j]
    ensures PartlyTwisted(after, start, base, i + 1)
  {
    hide Recur;
    assert (i + 1) % N == if i + 1 < N then i + 1 else 0;
    assert (i + M) % N == if i + M < N then i + M else i + M - N;
    assert after[i] == Word(start, base + N + i);
  }

  class MersenneTwister {
    const mt: array<bv32>
    var index: nat
    var seed: bv32
    ghost var start: seq<bv32>  // the table the stream began with
    ghost var base: nat         // stream position of mt[0]

    ghost predicate Valid()
      reads this, mt
    {
      && mt.Length == N
      && index <= N
      && |start| == N
      && forall j :: 0 <= j < N ==> mt[j] == Word(start, base + j)
    }

    /** Stream position of the next raw word. */
    ghost function Position(): nat
      reads this
    {
      base + index
    }

    constructor ()
      ensures Valid() && fresh(mt) && seed == 0 && Position() == 0
    {
      mt := new bv32[N](_ => 0);
      index, seed := 0, 0;
      start, base := seq(N, _ => 0), 0;
    }

    method TwistIteration(i: nat)
      requires mt.Length == N && i < N
      modifies mt
      ensures mt[i] == Recur(old(mt[i]), old(mt[(i + 1) % N]), old(mt[(i + M) % N]))
      ensures forall j :: 0 <= j < N && j != i ==> mt[j] == old(mt[j])
    {
      hide Recur;
      hide Twisted;
      TwistStep(mt[i], mt[(i + 1) % N], mt[(i + M) % N]);
      mt[i] := mt[(i + M) % N] ^ Twisted(mt[i], mt[(i + 1) % N]);
    }

    /** The wrap-around pass reads, at every index, exactly the old or new word the recurrence needs:
        the table moves on by 624 stream positions. */
    method Twist()
      requires Valid()
      modifies this`index, this`base, mt
      ensures Valid()
      ensures index == 0 && base == old(base) + N
    {
      hide Recur;
      hide Word;
      for i := 0 to N
        invariant mt.Length == N && |start| == N && base == old(base)
        invariant PartlyTwisted(mt[..], start, base, i)
      {
        ghost var before := mt[..];
        TwistIteration(i);
        PartlyTwistedStep(before, mt[..], start, base, i);
      }
      index := 0;
      base := base + N;
    }

    method NextU32(disableLevel: nat) returns (r: Result<bv32, RngError>)
      requires Valid()
      modifies this`index, this`base, mt
      ensures Valid()
      ensures r.Failure? <==> disableLevel > 0 || seed == 0
      ensures r.Failure? ==> r.error == IllegalState && Position() == old(Position())
      ensures r.Success? ==> r.value == Output(start, old(Position())) && Position() == old(Position()) + 1
    {
      if disableLevel > 0 {
        return Failure(IllegalState);
      }
      if seed == 0 {
        return Failure(IllegalState);
      }
      if index >= N {
        Twist();
      }
      hide Word;
      hide Temper1;
      hide Temper2;
      hide Temper3;
      hide Temper4;
      var x := mt[index];
      index := index + 1;
      x := Temper1(x);
      x := Temper2(x);
      x := Temper3(x);
      x := Temper4(x);
      return Success(x);
    }

    /** A value between min and max, both included. The one call that has no answer is the one over
        the full 32-bit range, whose width wraps to zero before it is used as a divisor. */
    method NextInRange(min: U32, max: U32, disableLevel: nat) returns (r: Result<U32, RngError>)
      requires Valid()
      modifies this`index, this`base, mt
      ensures Valid()
      ensures r.Success? ==> min <= r.value <= max
      ensures r.Success? && min < max ==>
                r.value == (Output(start, old(Position())) as nat) % (max - min + 1) + min
      ensures disableLevel == 0 && seed != 0 ==>
                (r.Failure? <==> min > max || (min == 0 && max == 0xFFFF_FFFF))
      ensures r.Failure? && r.error == DivisionByZero ==> min == 0 && max == 0xFFFF_FFFF
      ensures Position() == old(Position()) + (if disableLevel == 0 && seed != 0 && min < max then 1 else 0)
    {
      hide Output;
      if min > max {
        return Failure(IllegalArgument);
      }
      if min == max {
        return Success(min);
      }
      var range := (max - min + 1) % 0x1_0000_0000;
      var draw := NextU32(disableLevel);
      if draw.Failure? {
        return Failure(draw.error);
      }
      if range == 0 {
        return Failure(DivisionByZero);
      }
      return Success((draw.value as nat) % range + min);
    }

    /** The seeding recurrence and the XOR with the constants. */
    method FillTable(constants: seq<bv32>)
      requires mt.Length == N && |constants| == N
      modifies mt
      ensures forall j :: 0 <= j < N ==> mt[j] == Xor(Seeded(seed, j), constants[j])
    {
      hide SeedStep;
      hide Xor;
      hide Word;
      mt[0] := seed;
      for i := 1 to N
        invariant forall j :: 0 <= j < i ==> mt[j] == Seeded(seed, j)
      {
        mt[i] := SeedStep(mt[i - 1], i);
      }
      for i := 0 to N
        invariant forall j :: 0 <= j < i ==> mt[j] == Xor(Seeded(seed, j), constants[j])
        invariant forall j :: i <= j < N ==> mt[j] == Seeded(seed, j)
      {
        mt[i] := Xor(mt[i], constants[i]);
      }
    }

    /** Draws and drops the first 624 numbers. */
    method WarmUp() returns (r: Result<(), RngError>)
      requires Valid()
      modifies this`index, this`base, mt
      ensures Valid()
      ensures r.Failure? <==> seed == 0
      ensures r.Success? ==> Position() == old(Position()) + N
    {
      hide Output;
      hide Recur;
      for i := 0 to N
        invariant Valid() && (i > 0 ==> seed != 0)
        invariant Position() == old(Position()) + i
      {
        var draw := NextU32(0);
        if draw.Failure? {
          return Failure(IllegalState);
        }
      }
      return Success(());
    }

    /** Seeding fixes a start table, with the process-wide offset added, and throws away its first
        624 draws. */
    method SetSeed(newSeed: bv32, seedOffset: bv32, constants: seq<bv32>) returns (r: Result<(), RngError>)
      requires mt.Length == N && |constants| == N
      modifies this, mt
      ensures Valid()
      ensures seed == newSeed + seedOffset
      ensures |start| == N && forall j :: 0 <= j < N ==> start[j] == Seeded(seed, j) ^ constants[j]
      ensures r.Failure? <==> seed == 0
      ensures r.Success? ==> Position() == 2 * N
    {
      hide Xor;
      hide Seeded;
      hide Recur;
      seed := newSeed + seedOffset;
      FillTable(constants);
      forall j | 0 <= j < N
        ensures mt[j] == Seeded(seed, j) ^ constants[j]
      {
        XorIs(Seeded(seed, j), constants[j]);
      }
      index := N;
      start, base := mt[..], 0;
      r := WarmUp();
    }
  }
}
