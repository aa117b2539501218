/** The cipher, its inverse and the key schedule in the words of FIPS 197: rounds, bytes and constants written out, for
    every key and every block. */
module AesStandard {
  import opened AesField
  import opened AesTables
  import opened Aes

  // ---------- The steps, byte by byte ----------

  /** Section 5.1.4: the round key with number `round` is the schedule from byte 16 * round on. */
  lemma AddRoundKeyIs(s: Block, k: Schedule, round: nat, i: nat)
    requires round <= 10 && i < 16
    ensures AddRoundKeyOf(s, k, round)[i] == s[i] ^ k[16 * round + i]
  {}

  /** Sections 5.1.1 and 5.3.2. */
  lemma SubBytesIs(s: Block, i: nat)
    requires i < 16
    ensures SubBytesOf(s)[i] == SBox(s[i]) && InvSubBytesOf(s)[i] == RSBox(s[i])
  {
    hide SBox, RSBox;
  }

  lemma MixByteIs(a: bv8, b: bv8, d: bv8, e: bv8)
    ensures MixByte(a, b, d, e) == GfMul(a, 2) ^ GfMul(b, 3) ^ d ^ e
    ensures InvMixByte(a, b, d, e) == GfMul(a, 14) ^ GfMul(b, 11) ^ GfMul(d, 13) ^ GfMul(e, 9)
  {
    hide GfMul;
  }

  lemma MixColumnIs(a: bv8, b: bv8, d: bv8, e: bv8)
    ensures MixColumnOf(a, b, d, e)
            == [GfMul(a, 2) ^ GfMul(b, 3) ^ d ^ e, GfMul(b, 2) ^ GfMul(d, 3) ^ e ^ a,
                GfMul(d, 2) ^ GfMul(e, 3) ^ a ^ b, GfMul(e, 2) ^ GfMul(a, 3) ^ b ^ d]
    ensures InvMixColumnOf(a, b, d, e)
            == [GfMul(a, 14) ^ GfMul(b, 11) ^ GfMul(d, 13) ^ GfMul(e, 9),
                GfMul(b, 14) ^ GfMul(d, 11) ^ GfMul(e, 13) ^ GfMul(a, 9),
                GfMul(d, 14) ^ GfMul(e, 11) ^ GfMul(a, 13) ^ GfMul(b, 9),
                GfMul(e, 14) ^ GfMul(a, 11) ^ GfMul(b, 13) ^ GfMul(d, 9)]
  {
    MixByteIs(a, b, d, e);
    MixByteIs(b, d, e, a);
    MixByteIs(d, e, a, b);
    MixByteIs(e, a, b, d);
    hide GfMul, MixByte, InvMixByte;
  }

  lemma MixedColumn(s: Block, c: nat, a: bv8, b: bv8, d: bv8, e: bv8)
    requires c < 4 && s[4 * c] == a && s[4 * c + 1] == b && s[4 * c + 2] == d && s[4 * c + 3] == e
    ensures MixColumnsOf(s)[4 * c..4 * c + 4] == MixColumnOf(a, b, d, e)
    ensures InvMixColumnsOf(s)[4 * c..4 * c + 4] == InvMixColumnOf(a, b, d, e)
  {
    ColumnsOfMixed(s, c);
    hide MixColumnOf, InvMixColumnOf, MixColumnsOf, InvMixColumnsOf;
  }

  /** Sections 5.1.3 and 5.3.3: every column is multiplied by a circulant matrix, whose rows start at the diagonal. */
  lemma MixColumnsIs(s: Block, c: nat, a: bv8, b: bv8, d: bv8, e: bv8)
    requires c < 4 && s[4 * c] == a && s[4 * c + 1] == b && s[4 * c + 2] == d && s[4 * c + 3] == e
    ensures MixColumnsOf(s)[4 * c..4 * c + 4]
            == [GfMul(a, 2) ^ GfMul(b, 3) ^ d ^ e, GfMul(b, 2) ^ GfMul(d, 3) ^ e ^ a,
                GfMul(d, 2) ^ GfMul(e, 3) ^ a ^ b, GfMul(e, 2) ^ GfMul(a, 3) ^ b ^ d]
    ensures InvMixColumnsOf(s)[4 * c..4 * c + 4]
            == [GfMul(a, 14) ^ GfMul(b, 11) ^ GfMul(d, 13) ^ GfMul(e, 9),
                GfMul(b, 14) ^ GfMul(d, 11) ^ GfMul(e, 13) ^ GfMul(a, 9),
                GfMul(d, 14) ^ GfMul(e, 11) ^ GfMul(a, 13) ^ GfMul(b, 9),
                GfMul(e, 14) ^ GfMul(a, 11) ^ GfMul(b, 13) ^ GfMul(d, 9)]
  {
    MixedColumn(s, c, a, b, d, e);
    MixColumnIs(a, b, d, e);
    hide *;
  }

  // ---------- Ten rounds ----------

  /** Section 5.1: the state after every round, the last of which mixes no columns. */
  lemma CipherIs(k: Schedule, st: seq<Block>)
    requires |st| == 12 && st[1] == AddRoundKeyOf(st[0], k, 0)
    requires forall r | 1 <= r < 10 :: st[r + 1] == AddRoundKeyOf(MixColumnsOf(ShiftRowsOf(SubBytesOf(st[r]))), k, r)
    requires st[11] == AddRoundKeyOf(ShiftRowsOf(SubBytesOf(st[10])), k, 10)
    ensures CipherOf(st[0], k) == st[11]
  {
    hide AddRoundKeyOf, MixColumnsOf, ShiftRowsOf, SubBytesOf;
    for r := 1 to 10
      invariant Rounds(st[0], k, r - 1) == st[r]
    {
    }
  }

  /** Section 5.3. */
  lemma InvCipherIs(k: Schedule, st: seq<Block>)
    requires |st| == 12 && st[1] == AddRoundKeyOf(st[0], k, 10)
    requires forall r | 1 <= r < 10 ::
               st[r + 1] == InvMixColumnsOf(AddRoundKeyOf(InvSubBytesOf(InvShiftRowsOf(st[r])), k, 10 - r))
    requires st[11] == AddRoundKeyOf(InvSubBytesOf(InvShiftRowsOf(st[10])), k, 0)
    ensures InvCipherOf(st[0], k) == st[11]
  {
    hide AddRoundKeyOf, InvMixColumnsOf, InvShiftRowsOf, InvSubBytesOf;
    for r := 1 to 10
      invariant InvRounds(st[0], k, 11 - r) == st[r]
    {
    }
  }

  // ---------- The key schedule ----------

  const POWERS: seq<bv8> := [0x01, 0x02, 0x04, 0x08, 0x10, 0x20, 0x40, 0x80, 0x1b, 0x36]

  lemma PowersAre(i: nat)
    requires 1 <= i <= 10
    ensures RconOf(i) == POWERS[i - 1]
  {
    RconIsPowers(i);
  }

  lemma ScheduleByte(key: Block, j: nat)
    requires j < 176
    ensures KeyScheduleOf(key)[j] == KeyWord(key, j / 4)[j % 4]
  {
    hide KeyWord;
  }

  lemma ScheduleBytes(key: Block, i: nat)
    requires i < 44
    ensures var k := KeyScheduleOf(key);
            KeyWord(key, i) == [k[4 * i], k[4 * i + 1], k[4 * i + 2], k[4 * i + 3]]
  {
    hide KeyWord, KeyScheduleOf;
    ScheduleByte(key, 4 * i);
    ScheduleByte(key, 4 * i + 1);
    ScheduleByte(key, 4 * i + 2);
    ScheduleByte(key, 4 * i + 3);
  }

  /** What happens to the last word before a round key. */
  lemma ScheduleCoreIs(w: bv8, x: bv8, y: bv8, z: bv8, i: nat)
    requires 1 <= i <= 10
    ensures ScheduleCore([w, x, y, z], i) == [SBox(x) ^ POWERS[i - 1], SBox(y), SBox(z), SBox(w)]
  {
    PowersAre(i);
    hide SBox, RconOf;
  }

  lemma XorWordIs(a: Word, b: Word)
    ensures XorWord(a, b) == [a[0] ^ b[0], a[1] ^ b[1], a[2] ^ b[2], a[3] ^ b[3]]
  {}

  /** The schedule as the 44 words of section 5.2, whose recurrence KeyWord follows. */
  lemma ScheduleWordIs(key: Block, i: nat)
    requires i < 44
    ensures KeyScheduleOf(key)[4 * i..4 * i + 4] == KeyWord(key, i)
  {
    ScheduleBytes(key, i);
    var k := KeyScheduleOf(key);
    hide *;
    assert k[4 * i..4 * i + 4] == [k[4 * i], k[4 * i + 1], k[4 * i + 2], k[4 * i + 3]];
  }

  /** Section 5.2: the schedule starts with the key; a word is the one before it XORed with the one four back, where at
      the start of every round key the one before it is first rotated, substituted and given a power of x. */
  lemma KeyScheduleIs(key: Block, i: nat)
    requires 4 <= i < 44
    ensures KeyScheduleOf(key)[..16] == key
    ensures KeyScheduleOf(key)[4 * i..4 * i + 4]
            == XorWord(KeyScheduleOf(key)[4 * i - 16..4 * i - 12],
                       if i % 4 == 0 then ScheduleCore(KeyScheduleOf(key)[4 * i - 4..4 * i], i / 4)
                       else KeyScheduleOf(key)[4 * i - 4..4 * i])
  {
    StartsWithKey(key);
    ScheduleWordIs(key, i - 4);
    ScheduleWordIs(key, i - 1);
    ScheduleWordIs(key, i);
    NextKeyWord(key, i);
    hide KeyScheduleOf, KeyWord, XorWord, ScheduleCore;
  }

  lemma StartsWithKey(key: Block)
    ensures KeyScheduleOf(key)[..16] == key
  {
    hide SBox, RconOf, XorWord;
  }
}
