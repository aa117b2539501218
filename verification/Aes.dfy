/** AES-128 as cherrysim/aes.c computes it, in place on a 16-byte window of the output buffer, against
    the functions of FIPS 197 section 5. State byte [i][j] of the code is byte 4 * i + j of the block. */
module Aes {
  import opened AesField
  import opened AesTables

  const NB := 4
  const NK := 4
  const NR := 10
  const KEY_SCHEDULE_LEN := 176

  type Block = b: seq<bv8> | |b| == 16 witness seq(16, _ => 0)
  type Schedule = k: seq<bv8> | |k| == 176 witness seq(176, _ => 0)
  type Word = w: seq<bv8> | |w| == 4 witness [0, 0, 0, 0]

  // ---------- Reference: FIPS 197 ----------

  function XorBlock(a: Block, b: Block): Block {
    seq(16, i requires 0 <= i < 16 => Xor(a[i], b[i]))
  }

  function RoundKeyOf(k: Schedule, round: nat): Block
    requires round <= NR
  {
    k[16 * round..16 * round + 16]
  }

  function AddRoundKeyOf(s: Block, k: Schedule, round: nat): Block
    requires round <= NR
  {
    XorBlock(s, RoundKeyOf(k, round))
  }

  function SubBytesOf(s: Block): Block {
    seq(16, i requires 0 <= i < 16 => SBox(s[i]))
  }

  function InvSubBytesOf(s: Block): Block {
    seq(16, i requires 0 <= i < 16 => RSBox(s[i]))
  }

  /** Row r (byte r of every column) is rotated left by r columns. */
  function ShiftRowsOf(s: Block): Block {
    seq(16, i requires 0 <= i < 16 => s[4 * ((i / 4 + i % 4) % 4) + i % 4])
  }

  function InvShiftRowsOf(s: Block): Block {
    seq(16, i requires 0 <= i < 16 => s[4 * ((i / 4 + 4 - i % 4) % 4) + i % 4])
  }

  function MixColumnOf(w: bv8, x: bv8, y: bv8, z: bv8): Word {
    [MixByte(w, x, y, z), MixByte(x, y, z, w), MixByte(y, z, w, x), MixByte(z, w, x, y)]
  }

  function InvMixColumnOf(w: bv8, x: bv8, y: bv8, z: bv8): Word {
    [InvMixByte(w, x, y, z), InvMixByte(x, y, z, w), InvMixByte(y, z, w, x), InvMixByte(z, w, x, y)]
  }

  function Columns(a: Word, b: Word, c: Word, d: Word): Block {
    a + b + c + d
  }

  function MixColumnsOf(s: Block): Block {
    Columns(MixColumnOf(s[0], s[1], s[2], s[3]), MixColumnOf(s[4], s[5], s[6], s[7]),
            MixColumnOf(s[8], s[9], s[10], s[11]), MixColumnOf(s[12], s[13], s[14], s[15]))
  }

  function InvMixColumnsOf(s: Block): Block {
    Columns(InvMixColumnOf(s[0], s[1], s[2], s[3]), InvMixColumnOf(s[4], s[5], s[6], s[7]),
            InvMixColumnOf(s[8], s[9], s[10], s[11]), InvMixColumnOf(s[12], s[13], s[14], s[15]))
  }

  /** The state after the first round key and `round` full rounds. */
  function Rounds(s: Block, k: Schedule, round: nat): Block
    requires round < NR
  {
    if round == 0 then AddRoundKeyOf(s, k, 0)
    else AddRoundKeyOf(MixColumnsOf(ShiftRowsOf(SubBytesOf(Rounds(s, k, round - 1)))), k, round)
  }

  function CipherOf(s: Block, k: Schedule): Block {
    AddRoundKeyOf(ShiftRowsOf(SubBytesOf(Rounds(s, k, NR - 1))), k, NR)
  }

  /** The state of the inverse cipher once it has worked down to `round`. */
  function InvRounds(s: Block, k: Schedule, round: nat): Block
    requires 1 <= round <= NR
    decreases NR - round
  {
    if round == NR then AddRoundKeyOf(s, k, NR)
    else InvMixColumnsOf(AddRoundKeyOf(InvSubBytesOf(InvShiftRowsOf(InvRounds(s, k, round + 1))), k, round))
  }

  function InvCipherOf(s: Block, k: Schedule): Block {
    AddRoundKeyOf(InvSubBytesOf(InvShiftRowsOf(InvRounds(s, k, 1))), k, 0)
  }

  // ---------- The inverse cipher undoes the cipher ----------

  lemma XorBlockUndone(a: Block, b: Block)
    ensures XorBlock(XorBlock(a, b), b) == a
    ensures XorBlock(a, b) == XorBlock(b, a)
  {
    hide Xor;
    forall i | 0 <= i < 16
      ensures Xor(Xor(a[i], b[i]), b[i]) == a[i]
      ensures Xor(a[i], b[i]) == Xor(b[i], a[i])
    {
      XorRules(a[i], b[i], b[i]);
      XorRules(b[i], a[i], 0);
      XorRules(a[i], 0, 0);
    }
  }

  lemma SubBytesUndone(s: Block)
    ensures InvSubBytesOf(SubBytesOf(s)) == s
  {
    hide SBox;
    hide RSBox;
    forall i | 0 <= i < 16
      ensures RSBox(SBox(s[i])) == s[i]
    {
      SBoxUndone(s[i]);
    }
  }

  lemma ShiftedBytes(s: Block)
    ensures ShiftRowsOf(s) == [s[0], s[5], s[10], s[15], s[4], s[9], s[14], s[3],
                               s[8], s[13], s[2], s[7], s[12], s[1], s[6], s[11]]
  {}

  lemma InvShiftedBytes(s: Block)
    ensures InvShiftRowsOf(s) == [s[0], s[13], s[10], s[7], s[4], s[1], s[14], s[11],
                                  s[8], s[5], s[2], s[15], s[12], s[9], s[6], s[3]]
  {}

  lemma ShiftRowsUndone(s: Block)
    ensures InvShiftRowsOf(ShiftRowsOf(s)) == s
  {
    hide ShiftRowsOf;
    hide InvShiftRowsOf;
    ShiftedBytes(s);
    InvShiftedBytes(ShiftRowsOf(s));
  }

  lemma MixColumnsUndone(s: Block)
    ensures InvMixColumnsOf(MixColumnsOf(s)) == s
  {
    hide MixColumnOf;
    hide InvMixColumnOf;
    hide Columns;
    ColumnsByByte(MixColumnOf(s[0], s[1], s[2], s[3]), MixColumnOf(s[4], s[5], s[6], s[7]),
                  MixColumnOf(s[8], s[9], s[10], s[11]), MixColumnOf(s[12], s[13], s[14], s[15]));
    ColumnsOfBlock(s);
    MixColumnUndone(s[0], s[1], s[2], s[3]);
    MixColumnUndone(s[4], s[5], s[6], s[7]);
    MixColumnUndone(s[8], s[9], s[10], s[11]);
    MixColumnUndone(s[12], s[13], s[14], s[15]);
  }

  lemma ColumnsByByte(a: Word, b: Word, c: Word, d: Word)
    ensures var m := Columns(a, b, c, d);
            && m[0] == a[0] && m[1] == a[1] && m[2] == a[2] && m[3] == a[3]
            && m[4] == b[0] && m[5] == b[1] && m[6] == b[2] && m[7] == b[3]
            && m[8] == c[0] && m[9] == c[1] && m[10] == c[2] && m[11] == c[3]
            && m[12] == d[0] && m[13] == d[1] && m[14] == d[2] && m[15] == d[3]
  {}

  lemma ColumnsOfBlock(s: Block)
    ensures Columns([s[0], s[1], s[2], s[3]], [s[4], s[5], s[6], s[7]],
                    [s[8], s[9], s[10], s[11]], [s[12], s[13], s[14], s[15]]) == s
  {
    ColumnsByByte([s[0], s[1], s[2], s[3]], [s[4], s[5], s[6], s[7]],
                  [s[8], s[9], s[10], s[11]], [s[12], s[13], s[14], s[15]]);
  }

  lemma MixColumnUndone(w: bv8, x: bv8, y: bv8, z: bv8)
    ensures var m := MixColumnOf(w, x, y, z);
            InvMixColumnOf(m[0], m[1], m[2], m[3]) == [w, x, y, z]
  {
    hide MixByte;
    hide InvMixByte;
    MixThenInvMix(w, x, y, z);
    MixThenInvMix(x, y, z, w);
    MixThenInvMix(y, z, w, x);
    MixThenInvMix(z, w, x, y);
  }

  /** The round loops mirror each other: working down to `round`, the inverse cipher holds what the
      cipher held after SubBytes and ShiftRows of that round. */
  lemma {:induction false} InvRoundsMirrorRounds(s: Block, k: Schedule, round: nat)
    requires 1 <= round <= NR
    ensures InvRounds(CipherOf(s, k), k, round) == ShiftRowsOf(SubBytesOf(Rounds(s, k, round - 1)))
    decreases NR - round
  {
    hide XorBlock;
    hide SubBytesOf;
    hide InvSubBytesOf;
    hide ShiftRowsOf;
    hide InvShiftRowsOf;
    hide MixColumnsOf;
    hide InvMixColumnsOf;
    if round == NR {
      XorBlockUndone(ShiftRowsOf(SubBytesOf(Rounds(s, k, NR - 1))), RoundKeyOf(k, NR));
    } else {
      InvRoundsMirrorRounds(s, k, round + 1);
      var mixed := MixColumnsOf(ShiftRowsOf(SubBytesOf(Rounds(s, k, round - 1))));
      ShiftRowsUndone(SubBytesOf(Rounds(s, k, round)));
      SubBytesUndone(Rounds(s, k, round));
      XorBlockUndone(mixed, RoundKeyOf(k, round));
      MixColumnsUndone(ShiftRowsOf(SubBytesOf(Rounds(s, k, round - 1))));
    }
  }

  /** For every block and every key schedule, decryption returns the block that was encrypted. */
  lemma InvCipherUndoesCipher(s: Block, k: Schedule)
    ensures InvCipherOf(CipherOf(s, k), k) == s
  {
    hide XorBlock;
    hide SubBytesOf;
    hide InvSubBytesOf;
    hide ShiftRowsOf;
    hide InvShiftRowsOf;
    hide CipherOf;
    hide InvRounds;
    hide RoundKeyOf;
    hide MixColumnsOf;
    InvRoundsMirrorRounds(s, k, 1);
    ShiftRowsUndone(SubBytesOf(Rounds(s, k, 0)));
    SubBytesUndone(Rounds(s, k, 0));
    XorBlockUndone(s, RoundKeyOf(k, 0));
  }

  // ---------- Key schedule, FIPS 197 section 5.2 ----------

  /** Powers of x in the field. */
  function RconOf(i: nat): bv8 {
    if i <= 1 then 1 else XTime(RconOf(i - 1))
  }

  function XorWord(a: Word, b: Word): Word {
    [Xor(a[0], b[0]), Xor(a[1], b[1]), Xor(a[2], b[2]), Xor(a[3], b[3])]
  }

  /** SubWord of RotWord, with the round constant added to the first byte. */
  function ScheduleCore(w: Word, i: nat): Word {
    [Xor(SBox(w[1]), RconOf(i)), SBox(w[2]), SBox(w[3]), SBox(w[0])]
  }

  function KeyWord(key: Block, i: nat): Word {
    if i < NK then key[4 * i..4 * i + 4]
    else
      var previous := KeyWord(key, i - 1);
      XorWord(KeyWord(key, i - NK), if i % NK == 0 then ScheduleCore(previous, i / NK) else previous)
  }

  lemma NextKeyWord(key: Block, i: nat)
    requires i >= NK
    ensures var previous := KeyWord(key, i - 1);
            KeyWord(key, i)
            == XorWord(KeyWord(key, i - NK), if i % NK == 0 then ScheduleCore(previous, i / NK) else previous)
  {
    hide ScheduleCore, XorWord;
  }

  function KeyScheduleOf(key: Block): Schedule {
    seq(176, j requires 0 <= j < 176 => KeyWord(key, j / 4)[j % 4])
  }

  /** The code's table; its first entry is never read. */
  const RCON: seq<bv8> := [0x8d, 0x01, 0x02, 0x04, 0x08, 0x10, 0x20, 0x40, 0x80, 0x1b, 0x36]

  lemma RconIsPowers(i: nat)
    requires 1 <= i <= 10
    ensures RCON[i] == RconOf(i)
  {
    assert RconOf(1) == 0x01 && RconOf(2) == 0x02 && RconOf(3) == 0x04 && RconOf(4) == 0x08 && RconOf(5) == 0x10;
    assert RconOf(6) == 0x20 && RconOf(7) == 0x40 && RconOf(8) == 0x80 && RconOf(9) == 0x1b && RconOf(10) == 0x36;
  }

  // ---------- The in-place steps, byte by byte ----------

  lemma RowsRotated(s: Block)
    ensures s[1 := s[5]][5 := s[9]][9 := s[13]][13 := s[1]][2 := s[10]][10 := s[2]][6 := s[14]][14 := s[6]]
             [3 := s[15]][15 := s[11]][11 := s[7]][7 := s[3]] == ShiftRowsOf(s)
  {
    hide ShiftRowsOf;
    ShiftedBytes(s);
  }

  lemma RowsRotatedBack(s: Block)
    ensures s[13 := s[9]][9 := s[5]][5 := s[1]][1 := s[13]][2 := s[10]][10 := s[2]][6 := s[14]][14 := s[6]]
             [3 := s[7]][7 := s[11]][11 := s[15]][15 := s[3]] == InvShiftRowsOf(s)
  {
    hide InvShiftRowsOf;
    InvShiftedBytes(s);
  }

  function ColumnAt(s: Block, c: nat): Word
    requires c < 4
  {
    s[4 * c..4 * c + 4]
  }

  function MixColumnAt(s: Block, c: nat): Word
    requires c < 4
  {
    MixColumnOf(s[4 * c], s[4 * c + 1], s[4 * c + 2], s[4 * c + 3])
  }

  function InvMixColumnAt(s: Block, c: nat): Word
    requires c < 4
  {
    InvMixColumnOf(s[4 * c], s[4 * c + 1], s[4 * c + 2], s[4 * c + 3])
  }

  lemma ByColumns(t: Block, m: Block)
    requires forall c | 0 <= c < 4 :: ColumnAt(t, c) == ColumnAt(m, c)
    ensures t == m
  {
    assert ColumnAt(t, 0) == ColumnAt(m, 0) && ColumnAt(t, 1) == ColumnAt(m, 1)
        && ColumnAt(t, 2) == ColumnAt(m, 2) && ColumnAt(t, 3) == ColumnAt(m, 3);
    assert t == ColumnAt(t, 0) + ColumnAt(t, 1) + ColumnAt(t, 2) + ColumnAt(t, 3);
    assert m == ColumnAt(m, 0) + ColumnAt(m, 1) + ColumnAt(m, 2) + ColumnAt(m, 3);
  }

  lemma ColumnsOfColumns(a: Word, b: Word, c: Word, d: Word)
    ensures var m := Columns(a, b, c, d);
            ColumnAt(m, 0) == a && ColumnAt(m, 1) == b && ColumnAt(m, 2) == c && ColumnAt(m, 3) == d
  {}

  lemma ColumnsOfMixed(s: Block, c: nat)
    requires c < 4
    ensures ColumnAt(MixColumnsOf(s), c) == MixColumnAt(s, c)
    ensures ColumnAt(InvMixColumnsOf(s), c) == InvMixColumnAt(s, c)
  {
    hide MixColumnOf;
    hide InvMixColumnOf;
    hide Columns;
    hide ColumnAt;
    ColumnsOfColumns(MixColumnAt(s, 0), MixColumnAt(s, 1), MixColumnAt(s, 2), MixColumnAt(s, 3));
    ColumnsOfColumns(InvMixColumnAt(s, 0), InvMixColumnAt(s, 1), InvMixColumnAt(s, 2), InvMixColumnAt(s, 3));
  }

  /** The four bytes the code writes into a column are the four rows of the matrix product. */
  lemma CodeMixColumn(w: bv8, x: bv8, y: bv8, z: bv8)
    ensures var tmp := Xor4(w, x, y, z);
            [Xor(w, Xor(XTime(Xor(w, x)), tmp)), Xor(x, Xor(XTime(Xor(x, y)), tmp)),
             Xor(y, Xor(XTime(Xor(y, z)), tmp)), Xor(z, Xor(XTime(Xor(z, w)), tmp))] == MixColumnOf(w, x, y, z)
  {
    hide Xor;
    hide Xor4;
    hide XTime;
    hide MixByte;
    Xor4Rotates(w, x, y, z);
    CodeMixByte(w, x, y, z);
    CodeMixByte(x, y, z, w);
    CodeMixByte(y, z, w, x);
    CodeMixByte(z, w, x, y);
  }

  /** The same for the product macro of InvMixColumns, summands in the code's order. */
  lemma CodeInvMixColumn(a: bv8, b: bv8, c: bv8, d: bv8)
    ensures [Xor4(Multiply(a, 0x0e), Multiply(b, 0x0b), Multiply(c, 0x0d), Multiply(d, 0x09)),
             Xor4(Multiply(a, 0x09), Multiply(b, 0x0e), Multiply(c, 0x0b), Multiply(d, 0x0d)),
             Xor4(Multiply(a, 0x0d), Multiply(b, 0x09), Multiply(c, 0x0e), Multiply(d, 0x0b)),
             Xor4(Multiply(a, 0x0b), Multiply(b, 0x0d), Multiply(c, 0x09), Multiply(d, 0x0e))]
         == InvMixColumnOf(a, b, c, d)
  {
    hide Xor4;
    hide Multiply;
    hide InvMixByte;
    InvMixByteIsXor4(a, b, c, d);
    InvMixByteIsXor4(b, c, d, a);
    InvMixByteIsXor4(c, d, a, b);
    InvMixByteIsXor4(d, a, b, c);
    Xor4Rotates(Multiply(a, 0x09), Multiply(b, 0x0e), Multiply(c, 0x0b), Multiply(d, 0x0d));
    Xor4Rotates(Multiply(a, 0x0d), Multiply(b, 0x09), Multiply(c, 0x0e), Multiply(d, 0x0b));
    Xor4Rotates(Multiply(a, 0x0b), Multiply(b, 0x0d), Multiply(c, 0x09), Multiply(d, 0x0e));
  }

  // ---------- The code, in place ----------

  /** The static state of the library: the round keys, and where the chaining block lives. `iv` and
      `ivAt` are the pointer `Iv`: it points into buffers of the caller, not to a copy. */
  class Context {
    const roundKey: array<bv8>
    var iv: array?<bv8>
    var ivAt: nat

    ghost predicate Valid()
      reads this
    {
      && roundKey.Length == KEY_SCHEDULE_LEN
      && (iv != null ==> ivAt + 16 <= iv.Length && iv != roundKey)
    }

    constructor ()
      ensures Valid() && fresh(roundKey) && iv == null
    {
      roundKey := new bv8[KEY_SCHEDULE_LEN](_ => 0);
      iv, ivAt := null, 0;
    }

    ghost function Keys(): Schedule
      reads this, roundKey
      requires Valid()
    {
      roundKey[..]
    }

    /** The first n words of a schedule are those of the key. */
    static ghost predicate HoldsWords(s: Schedule, key: Block, n: nat)
      requires n <= 44
    {
      forall w | 0 <= w < n :: WordAt(s, w) == KeyWord(key, w)
    }

    static function WordAt(s: Schedule, w: nat): Word
      requires w < 44
    {
      s[4 * w..4 * w + 4]
    }

    /** RotWord, SubWord and the round constant, on the four bytes of `tempa`. */
    method ScheduleWord(previous: Word, i: nat) returns (t: Word)
      requires NK <= i < NB * (NR + 1)
      ensures t == if i % NK == 0 then ScheduleCore(previous, i / NK) else previous
    {
      hide SBox;
      hide Xor;
      hide RconOf;
      t := previous;
      if i % NK == 0 {
        t := [t[1], t[2], t[3], t[0]];
        t := [SBox(t[0]), SBox(t[1]), SBox(t[2]), SBox(t[3])];
        RconIsPowers(i / NK);
        t := t[0 := Xor(t[0], RCON[i / NK])];
      }
    }

    method StoreXored(back: nat, tempa: Word, i: nat)
      requires Valid() && back < i < NB * (NR + 1)
      modifies roundKey
      ensures WordAt(roundKey[..], i) == XorWord(old(WordAt(roundKey[..], back)), tempa)
      ensures roundKey[..4 * i] == old(roundKey[..4 * i])
    {
      hide Xor;
      FourBytes(roundKey[..], 4 * back);
      roundKey[4 * i] := Xor(roundKey[4 * back], tempa[0]);
      roundKey[4 * i + 1] := Xor(roundKey[4 * back + 1], tempa[1]);
      roundKey[4 * i + 2] := Xor(roundKey[4 * back + 2], tempa[2]);
      roundKey[4 * i + 3] := Xor(roundKey[4 * back + 3], tempa[3]);
      FourBytes(roundKey[..], 4 * i);
    }

    static lemma FourBytes(s: seq<bv8>, a: nat)
      requires a + 4 <= |s|
      ensures s[a..a + 4] == [s[a], s[a + 1], s[a + 2], s[a + 3]]
    {}

    /** With one more word stored behind the first i, those are as they were. */
    static lemma OneMoreWord(s: Schedule, s': Schedule, key: Block, i: nat)
      requires i < 44 && HoldsWords(s, key, i) && s'[..4 * i] == s[..4 * i] && WordAt(s', i) == KeyWord(key, i)
      ensures HoldsWords(s', key, i + 1)
    {
      hide KeyWord;
      forall w | 0 <= w < i
        ensures WordAt(s', w) == KeyWord(key, w)
      {
        assert s'[4 * w..4 * w + 4] == s'[..4 * i][4 * w..4 * w + 4];
        assert s[4 * w..4 * w + 4] == s[..4 * i][4 * w..4 * w + 4];
        assert WordAt(s, w) == KeyWord(key, w);
      }
    }

    method ExpandWord(ghost key: Block, i: nat)
      requires Valid() && NK <= i < NB * (NR + 1) && HoldsWords(roundKey[..], key, i)
      modifies roundKey
      ensures HoldsWords(roundKey[..], key, i + 1)
    {
      hide ScheduleCore;
      hide XorWord;
      hide KeyWord;
      ghost var s: Schedule := roundKey[..];
      NextKeyWord(key, i);
      assert WordAt(s, i - 1) == KeyWord(key, i - 1) && WordAt(s, i - NK) == KeyWord(key, i - NK);
      hide HoldsWords;
      var tempa := ScheduleWord(roundKey[4 * (i - 1)..4 * (i - 1) + 4], i);
      StoreXored(i - NK, tempa, i);
      OneMoreWord(s, roundKey[..], key, i);
    }

    method KeyExpansion(key: array<bv8>)
      requires Valid() && key.Length == 16 && key != roundKey
      modifies roundKey
      ensures Keys() == KeyScheduleOf(key[..])
    {
      for i := 0 to NK
        invariant forall j | 0 <= j < 4 * i :: roundKey[j] == key[j]
      {
        roundKey[4 * i] := key[4 * i];
        roundKey[4 * i + 1] := key[4 * i + 1];
        roundKey[4 * i + 2] := key[4 * i + 2];
        roundKey[4 * i + 3] := key[4 * i + 3];
      }
      for i := NK to NB * (NR + 1)
        invariant HoldsWords(roundKey[..], key[..], i)
      {
        ExpandWord(key[..], i);
      }
      hide KeyWord;
      forall j | 0 <= j < 176
        ensures roundKey[j] == KeyWord(key[..], j / 4)[j % 4]
      {
        assert WordAt(roundKey[..], j / 4) == KeyWord(key[..], j / 4);
        assert roundKey[4 * (j / 4)..4 * (j / 4) + 4][j % 4] == roundKey[j];
      }
    }

    // The steps below work on the window buf[at..at + 16], the code's `*state`.

    static function State(buf: array<bv8>, at: nat): Block
      requires at + 16 <= buf.Length
      reads buf
    {
      buf[at..at + 16]
    }

    static method Put(buf: array<bv8>, at: nat, k: nat, v: bv8)
      requires at + 16 <= buf.Length && k < 16
      modifies buf
      ensures State(buf, at) == old(State(buf, at))[k := v]
      ensures buf[..at] == old(buf[..at]) && buf[at + 16..] == old(buf[at + 16..])
    {
      buf[at + k] := v;
    }

    method AddRoundKey(buf: array<bv8>, at: nat, round: nat)
      requires Valid() && buf != roundKey && at + 16 <= buf.Length && round <= NR
      modifies buf
      ensures State(buf, at) == AddRoundKeyOf(old(State(buf, at)), Keys(), round)
      ensures buf[..at] == old(buf[..at]) && buf[at + 16..] == old(buf[at + 16..])
    {
      hide Xor;
      ghost var s, key := State(buf, at), RoundKeyOf(Keys(), round);
      for i := 0 to 4
        invariant forall k | 0 <= k < 16 :: State(buf, at)[k] == if k < 4 * i then Xor(s[k], key[k]) else s[k]
        invariant buf[..at] == old(buf[..at]) && buf[at + 16..] == old(buf[at + 16..])
      {
        for j := 0 to 4
          invariant forall k | 0 <= k < 16 :: State(buf, at)[k] == if k < 4 * i + j then Xor(s[k], key[k]) else s[k]
          invariant buf[..at] == old(buf[..at]) && buf[at + 16..] == old(buf[at + 16..])
        {
          Put(buf, at, 4 * i + j, Xor(buf[at + 4 * i + j], roundKey[round * NB * 4 + i * NB + j]));
        }
      }
    }

    method SubBytes(buf: array<bv8>, at: nat)
      requires at + 16 <= buf.Length
      modifies buf
      ensures State(buf, at) == SubBytesOf(old(State(buf, at)))
      ensures buf[..at] == old(buf[..at]) && buf[at + 16..] == old(buf[at + 16..])
    {
      hide SBox;
      ghost var s := State(buf, at);
      for i := 0 to 4
        invariant forall k | 0 <= k < 16 :: State(buf, at)[k] == if k % 4 < i then SBox(s[k]) else s[k]
        invariant buf[..at] == old(buf[..at]) && buf[at + 16..] == old(buf[at + 16..])
      {
        for j := 0 to 4
          invariant forall k | 0 <= k < 16 :: State(buf, at)[k] ==
                      if k % 4 < i || (k % 4 == i && k / 4 < j) then SBox(s[k]) else s[k]
          invariant buf[..at] == old(buf[..at]) && buf[at + 16..] == old(buf[at + 16..])
        {
          Put(buf, at, 4 * j + i, SBox(buf[at + 4 * j + i]));
        }
      }
    }

    method InvSubBytes(buf: array<bv8>, at: nat)
      requires at + 16 <= buf.Length
      modifies buf
      ensures State(buf, at) == InvSubBytesOf(old(State(buf, at)))
      ensures buf[..at] == old(buf[..at]) && buf[at + 16..] == old(buf[at + 16..])
    {
      hide RSBox;
      ghost var s := State(buf, at);
      for i := 0 to 4
        invariant forall k | 0 <= k < 16 :: State(buf, at)[k] == if k % 4 < i then RSBox(s[k]) else s[k]
        invariant buf[..at] == old(buf[..at]) && buf[at + 16..] == old(buf[at + 16..])
      {
        for j := 0 to 4
          invariant forall k | 0 <= k < 16 :: State(buf, at)[k] ==
                      if k % 4 < i || (k % 4 == i && k / 4 < j) then RSBox(s[k]) else s[k]
          invariant buf[..at] == old(buf[..at]) && buf[at + 16..] == old(buf[at + 16..])
        {
          Put(buf, at, 4 * j + i, RSBox(buf[at + 4 * j + i]));
        }
      }
    }

    /** A chain of moves through `temp` around four bytes of the state. */
    static method Rotate(buf: array<bv8>, at: nat, a: nat, b: nat, c: nat, d: nat)
      requires at + 16 <= buf.Length && a < 16 && b < 16 && c < 16 && d < 16
      requires a != b && a != c && a != d && b != c && b != d && c != d
      modifies buf
      ensures var s := old(State(buf, at)); State(buf, at) == s[a := s[b]][b := s[c]][c := s[d]][d := s[a]]
      ensures buf[..at] == old(buf[..at]) && buf[at + 16..] == old(buf[at + 16..])
    {
      var temp := buf[at + a];
      Put(buf, at, a, State(buf, at)[b]);
      Put(buf, at, b, State(buf, at)[c]);
      Put(buf, at, c, State(buf, at)[d]);
      Put(buf, at, d, temp);
    }

    static method Swap(buf: array<bv8>, at: nat, a: nat, b: nat)
      requires at + 16 <= buf.Length && a < 16 && b < 16 && a != b
      modifies buf
      ensures var s := old(State(buf, at)); State(buf, at) == s[a := s[b]][b := s[a]]
      ensures buf[..at] == old(buf[..at]) && buf[at + 16..] == old(buf[at + 16..])
    {
      var temp := buf[at + a];
      Put(buf, at, a, State(buf, at)[b]);
      Put(buf, at, b, temp);
    }

    method ShiftRows(buf: array<bv8>, at: nat)
      requires at + 16 <= buf.Length
      modifies buf
      ensures State(buf, at) == ShiftRowsOf(old(State(buf, at)))
      ensures buf[..at] == old(buf[..at]) && buf[at + 16..] == old(buf[at + 16..])
    {
      hide ShiftRowsOf;
      RowsRotated(State(buf, at));
      Rotate(buf, at, 1, 5, 9, 13);
      Swap(buf, at, 2, 10);
      Swap(buf, at, 6, 14);
      Rotate(buf, at, 3, 15, 11, 7);
    }

    method InvShiftRows(buf: array<bv8>, at: nat)
      requires at + 16 <= buf.Length
      modifies buf
      ensures State(buf, at) == InvShiftRowsOf(old(State(buf, at)))
      ensures buf[..at] == old(buf[..at]) && buf[at + 16..] == old(buf[at + 16..])
    {
      hide InvShiftRowsOf;
      RowsRotatedBack(State(buf, at));
      Rotate(buf, at, 13, 9, 5, 1);
      Swap(buf, at, 2, 10);
      Swap(buf, at, 6, 14);
      Rotate(buf, at, 3, 7, 11, 15);
    }

    /** Column c replaced, the rest of the state kept. */
    static ghost predicate ColumnReplaced(s: Block, t: Block, c: nat, w: Word)
      requires c < 4
    {
      ColumnAt(t, c) == w && forall d | 0 <= d < 4 && d != c :: ColumnAt(t, d) == ColumnAt(s, d)
    }

    static lemma FourPuts(s: Block, i: nat, w: bv8, x: bv8, y: bv8, z: bv8)
      requires i < 4
      ensures ColumnReplaced(s, s[4 * i := w][4 * i + 1 := x][4 * i + 2 := y][4 * i + 3 := z], i, [w, x, y, z])
    {}

    method MixColumn(buf: array<bv8>, at: nat, i: nat)
      requires at + 16 <= buf.Length && i < 4
      modifies buf
      ensures ColumnReplaced(old(State(buf, at)), State(buf, at), i, MixColumnAt(old(State(buf, at)), i))
      ensures buf[..at] == old(buf[..at]) && buf[at + 16..] == old(buf[at + 16..])
    {
      hide Xor;
      hide Xor4;
      hide XTime;
      hide MixColumnOf;
      hide ColumnReplaced;
      ghost var s := State(buf, at);
      ghost var w, x, y, z := s[4 * i], s[4 * i + 1], s[4 * i + 2], s[4 * i + 3];
      var t := State(buf, at)[4 * i];
      var tmp := Xor4(State(buf, at)[4 * i], State(buf, at)[4 * i + 1], State(buf, at)[4 * i + 2],
                      State(buf, at)[4 * i + 3]);
      var tm := XTime(Xor(State(buf, at)[4 * i], State(buf, at)[4 * i + 1]));
      Put(buf, at, 4 * i, Xor(State(buf, at)[4 * i], Xor(tm, tmp)));
      tm := XTime(Xor(State(buf, at)[4 * i + 1], State(buf, at)[4 * i + 2]));
      Put(buf, at, 4 * i + 1, Xor(State(buf, at)[4 * i + 1], Xor(tm, tmp)));
      tm := XTime(Xor(State(buf, at)[4 * i + 2], State(buf, at)[4 * i + 3]));
      Put(buf, at, 4 * i + 2, Xor(State(buf, at)[4 * i + 2], Xor(tm, tmp)));
      tm := XTime(Xor(State(buf, at)[4 * i + 3], t));
      Put(buf, at, 4 * i + 3, Xor(State(buf, at)[4 * i + 3], Xor(tm, tmp)));
      CodeMixColumn(w, x, y, z);
      FourPuts(s, i, Xor(w, Xor(XTime(Xor(w, x)), tmp)), Xor(x, Xor(XTime(Xor(x, y)), tmp)),
               Xor(y, Xor(XTime(Xor(y, z)), tmp)), Xor(z, Xor(XTime(Xor(z, w)), tmp)));
    }

    method MixColumns(buf: array<bv8>, at: nat)
      requires at + 16 <= buf.Length
      modifies buf
      ensures State(buf, at) == MixColumnsOf(old(State(buf, at)))
      ensures buf[..at] == old(buf[..at]) && buf[at + 16..] == old(buf[at + 16..])
    {
      hide MixColumnOf;
      hide MixColumnsOf;
      ghost var s := State(buf, at);
      for i := 0 to 4
        invariant forall c | 0 <= c < 4 ::
                    ColumnAt(State(buf, at), c) == if c < i then MixColumnAt(s, c) else ColumnAt(s, c)
        invariant buf[..at] == old(buf[..at]) && buf[at + 16..] == old(buf[at + 16..])
      {
        assert ColumnAt(State(buf, at), i) == ColumnAt(s, i);
        SameColumn(State(buf, at), s, i);
        MixColumn(buf, at, i);
      }
      forall c | 0 <= c < 4
        ensures ColumnAt(State(buf, at), c) == ColumnAt(MixColumnsOf(s), c)
      {
        ColumnsOfMixed(s, c);
      }
      ByColumns(State(buf, at), MixColumnsOf(s));
    }

    static lemma SameColumn(s: Block, t: Block, c: nat)
      requires c < 4 && ColumnAt(s, c) == ColumnAt(t, c)
      ensures MixColumnAt(s, c) == MixColumnAt(t, c) && InvMixColumnAt(s, c) == InvMixColumnAt(t, c)
    {
      hide MixColumnOf;
      hide InvMixColumnOf;
      var a, b := ColumnAt(s, c), ColumnAt(t, c);
      assert s[4 * c] == a[0] == b[0] == t[4 * c];
      assert s[4 * c + 1] == a[1] == b[1] == t[4 * c + 1];
      assert s[4 * c + 2] == a[2] == b[2] == t[4 * c + 2];
      assert s[4 * c + 3] == a[3] == b[3] == t[4 * c + 3];
    }

    static method PutColumn(buf: array<bv8>, at: nat, i: nat, w: bv8, x: bv8, y: bv8, z: bv8)
      requires at + 16 <= buf.Length && i < 4
      modifies buf
      ensures ColumnReplaced(old(State(buf, at)), State(buf, at), i, [w, x, y, z])
      ensures buf[..at] == old(buf[..at]) && buf[at + 16..] == old(buf[at + 16..])
    {
      Put(buf, at, 4 * i, w);
      Put(buf, at, 4 * i + 1, x);
      Put(buf, at, 4 * i + 2, y);
      Put(buf, at, 4 * i + 3, z);
    }

    method InvMixColumn(buf: array<bv8>, at: nat, i: nat)
      requires at + 16 <= buf.Length && i < 4
      modifies buf
      ensures ColumnReplaced(old(State(buf, at)), State(buf, at), i, InvMixColumnAt(old(State(buf, at)), i))
      ensures buf[..at] == old(buf[..at]) && buf[at + 16..] == old(buf[at + 16..])
    {
      hide Xor4;
      hide Multiply;
      hide InvMixColumnOf;
      var a, b := State(buf, at)[4 * i], State(buf, at)[4 * i + 1];
      var c, d := State(buf, at)[4 * i + 2], State(buf, at)[4 * i + 3];
      CodeInvMixColumn(a, b, c, d);
      PutColumn(buf, at, i,
                Xor4(Multiply(a, 0x0e), Multiply(b, 0x0b), Multiply(c, 0x0d), Multiply(d, 0x09)),
                Xor4(Multiply(a, 0x09), Multiply(b, 0x0e), Multiply(c, 0x0b), Multiply(d, 0x0d)),
                Xor4(Multiply(a, 0x0d), Multiply(b, 0x09), Multiply(c, 0x0e), Multiply(d, 0x0b)),
                Xor4(Multiply(a, 0x0b), Multiply(b, 0x0d), Multiply(c, 0x09), Multiply(d, 0x0e)));
    }

    method InvMixColumns(buf: array<bv8>, at: nat)
      requires at + 16 <= buf.Length
      modifies buf
      ensures State(buf, at) == InvMixColumnsOf(old(State(buf, at)))
      ensures buf[..at] == old(buf[..at]) && buf[at + 16..] == old(buf[at + 16..])
    {
      hide InvMixColumnOf;
      hide InvMixColumnsOf;
      ghost var s := State(buf, at);
      for i := 0 to 4
        invariant forall c | 0 <= c < 4 ::
                    ColumnAt(State(buf, at), c) == if c < i then InvMixColumnAt(s, c) else ColumnAt(s, c)
        invariant buf[..at] == old(buf[..at]) && buf[at + 16..] == old(buf[at + 16..])
      {
        assert ColumnAt(State(buf, at), i) == ColumnAt(s, i);
        SameColumn(State(buf, at), s, i);
        InvMixColumn(buf, at, i);
      }
      forall c | 0 <= c < 4
        ensures ColumnAt(State(buf, at), c) == ColumnAt(InvMixColumnsOf(s), c)
      {
        ColumnsOfMixed(s, c);
      }
      ByColumns(State(buf, at), InvMixColumnsOf(s));
    }

    method Cipher(buf: array<bv8>, at: nat)
      requires Valid() && buf != roundKey && at + 16 <= buf.Length
      modifies buf
      ensures State(buf, at) == CipherOf(old(State(buf, at)), Keys())
      ensures buf[..at] == old(buf[..at]) && buf[at + 16..] == old(buf[at + 16..])
    {
      hide AddRoundKeyOf;
      hide SubBytesOf;
      hide ShiftRowsOf;
      hide MixColumnsOf;
      ghost var s := State(buf, at);
      AddRoundKey(buf, at, 0);
      for round := 1 to NR
        invariant State(buf, at) == Rounds(s, Keys(), round - 1)
        invariant buf[..at] == old(buf[..at]) && buf[at + 16..] == old(buf[at + 16..])
      {
        SubBytes(buf, at);
        ShiftRows(buf, at);
        MixColumns(buf, at);
        AddRoundKey(buf, at, round);
      }
      SubBytes(buf, at);
      ShiftRows(buf, at);
      AddRoundKey(buf, at, NR);
    }

    method InvCipher(buf: array<bv8>, at: nat)
      requires Valid() && buf != roundKey && at + 16 <= buf.Length
      modifies buf
      ensures State(buf, at) == InvCipherOf(old(State(buf, at)), Keys())
      ensures buf[..at] == old(buf[..at]) && buf[at + 16..] == old(buf[at + 16..])
    {
      hide AddRoundKeyOf;
      hide InvSubBytesOf;
      hide InvShiftRowsOf;
      hide InvMixColumnsOf;
      ghost var s := State(buf, at);
      AddRoundKey(buf, at, NR);
      var round := NR - 1;
      while round > 0
        invariant 0 <= round < NR
        invariant State(buf, at) == InvRounds(s, Keys(), round + 1)
        invariant buf[..at] == old(buf[..at]) && buf[at + 16..] == old(buf[at + 16..])
      {
        InvShiftRows(buf, at);
        InvSubBytes(buf, at);
        AddRoundKey(buf, at, round);
        InvMixColumns(buf, at);
        round := round - 1;
      }
      InvShiftRows(buf, at);
      InvSubBytes(buf, at);
      AddRoundKey(buf, at, 0);
    }
  }
}
