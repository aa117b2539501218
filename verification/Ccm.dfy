/** AES-CCM as cherrysim/ccm_soft.c computes it, against RFC 3610 sections 2.2 to 2.5
    with a two-byte length field (L = 2). */
module Ccm {
  import opened Aes
  import opened AesModes
  import AesField

  const L_LEN := 2
  const NONCE_LEN := 13

  type Nonce = n: seq<bv8> | |n| == 13 witness seq(13, _ => 0)

  /** A buffer and the 16-bit length that goes with it. */
  datatype Sized = Sized(bytes: seq<bv8>, len: bv16)
  type Data = d: Sized | d.len as nat == |d.bytes| witness Sized([], 0)

  // ---------- Reference ----------

  /** The block cipher under a key. */
  function E(key: Block, b: Block): Block {
    hide CipherOf;
    hide KeyScheduleOf;
    CipherOf(b, KeyScheduleOf(key))
  }

  /** Most significant byte first. */
  function BigEndian16(n: bv16): (s: seq<bv8>)
    ensures |s| == 2
  {
    [(n >> 8) as bv8, (n & 0xff) as bv8]
  }

  function Zeros(n: nat): (s: seq<bv8>)
    ensures |s| == n
  {
    seq(n, _ => 0)
  }

  /** Zeros up to the next block boundary. */
  function Pad16(s: seq<bv8>): (p: seq<bv8>)
    ensures Whole(p) && s <= p && |p| < |s| + 16
  {
    s + Zeros((16 - |s| % 16) % 16)
  }

  /** Bit 6: additional data follows; bits 5 to 3: (M - 2) / 2, with the division of C, which rounds
      towards zero; bits 2 to 0: L - 1. */
  function Flags(hasData: bool, micLen: bv8): bv8 {
    (if hasData then 0x40 else 0)
    | (((if micLen == 0 then 7 else if micLen == 1 then 0 else (micLen - 2) >> 1) & 0x07) << 3)
    | ((L_LEN - 1) as bv8)
  }

  /** Block B_0: flags, nonce, message length. */
  function FirstBlock(nonce: Nonce, hasData: bool, messageLen: bv16, micLen: bv8): Block {
    [Flags(hasData, micLen)] + nonce + BigEndian16(messageLen)
  }

  lemma WholeAppend(s: seq<bv8>, t: seq<bv8>)
    requires Whole(s) && Whole(t)
    ensures Whole(s + t)
  {}

  /** The additional data as the code authenticates it: a two-byte length in front, zeros behind. */
  function EncodedData(a: Data): (s: seq<bv8>)
    ensures Whole(s)
  {
    if a.bytes == [] then [] else Pad16(BigEndian16(a.len) + a.bytes)
  }

  /** X_{i+1} = E(K, X_i xor B_i), from X over the blocks of s. */
  function CbcMac(key: Block, x: Block, s: seq<bv8>): Block
    requires Whole(s)
    decreases |s|
  {
    hide E;
    hide XorBlock;
    if s == [] then x else CbcMac(key, E(key, XorBlock(x, s[..16])), s[16..])
  }

  /** Everything after B_0 that goes into the authentication. */
  function AfterFirst(a: Data, m: Data): (s: seq<bv8>)
    ensures Whole(s)
  {
    WholeAppend(EncodedData(a), Pad16(m.bytes));
    EncodedData(a) + Pad16(m.bytes)
  }

  /** The authentication value T, all sixteen bytes of it. */
  function AuthValue(key: Block, nonce: Nonce, a: Data, m: Data, micLen: bv8): Block {
    hide E;
    CbcMac(key, E(key, FirstBlock(nonce, a.bytes != [], m.len, micLen)), AfterFirst(a, m))
  }

  /** Block A_i. */
  function CounterBlock(nonce: Nonce, i: bv16): Block {
    [(L_LEN - 1) as bv8] + nonce + BigEndian16(i)
  }

  /** The 16-bit counter after n steps. */
  function Counter(n: nat): bv16 {
    if n == 0 then 0 else Counter(n - 1) + 1
  }

  /** Block S_i. */
  function StreamBlock(key: Block, nonce: Nonce, i: nat): Block {
    hide E;
    E(key, CounterBlock(nonce, Counter(i)))
  }

  /** Encryption and decryption of the message: the same XOR with S_1, S_2, ... */
  function CryptBytes(key: Block, nonce: Nonce, m: seq<bv8>): (c: seq<bv8>)
    ensures |c| == |m|
  {
    hide StreamBlock;
    seq(|m|, j requires 0 <= j < |m| => AesField.Xor(m[j], StreamBlock(key, nonce, j / 16 + 1)[j % 16]))
  }

  function Crypt(key: Block, nonce: Nonce, m: Data): Data {
    hide CryptBytes;
    Sized(CryptBytes(key, nonce, m.bytes), m.len)
  }

  /** The encrypted authentication value U: the first M bytes of T xor S_0. */
  function Mic(key: Block, nonce: Nonce, a: Data, m: Data, micLen: bv8): (u: seq<bv8>)
    requires micLen <= 16
    ensures |u| == micLen as nat
  {
    hide StreamBlock;
    hide AuthValue;
    XorBlock(AuthValue(key, nonce, a, m, micLen), StreamBlock(key, nonce, 0))[..micLen as nat]
  }

  // ---------- The blocks in numbers ----------

  function High(n: bv16): bv8 { (n >> 8) as bv8 }

  function Low(n: bv16): bv8 { (n & 0xff) as bv8 }

  function Next(n: bv16): bv16 { n + 1 }

  function NextByte(b: bv8): bv8 { b + 1 }

  function Number(n: bv16): (r: nat)
    ensures r < 0x1_0000
  {
    n as nat
  }

  function ByteNumber(b: bv8): (r: nat)
    ensures r < 256
  {
    b as nat
  }

  lemma InBytes(n: bv16)
    ensures Number(n) == ByteNumber(High(n)) * 256 + ByteNumber(Low(n))
  {}

  lemma NextByteNumber(b: bv8)
    ensures ByteNumber(NextByte(b)) == if b == 0xff then 0 else ByteNumber(b) + 1
    ensures b == 0xff <==> ByteNumber(b) == 255
  {}

  lemma NextInBytes(n: bv16)
    ensures Low(Next(n)) == NextByte(Low(n))
    ensures High(Next(n)) == if Low(n) == 0xff then NextByte(High(n)) else High(n)
  {}

  lemma NextNumber(n: bv16)
    ensures Number(Next(n)) == (Number(n) + 1) % 0x1_0000
  {
    hide High, Low, Next, NextByte, Number, ByteNumber;
    NextInBytes(n);
    InBytes(n);
    InBytes(Next(n));
    NextByteNumber(Low(n));
    NextByteNumber(High(n));
  }

  lemma CounterNext(n: nat)
    requires n > 0
    ensures Counter(n) == Next(Counter(n - 1))
  {}

  lemma CounterStarts()
    ensures Number(Counter(0)) == 0
  {}

  /** The counter counts, modulo 2^16. */
  lemma {:induction false} CounterNumber(n: nat)
    ensures Number(Counter(n)) == n % 0x1_0000
    decreases n
  {
    hide Counter, Next, Number;
    if n > 0 {
      CounterNumber(n - 1);
      CounterNext(n);
      NextNumber(Counter(n - 1));
    } else {
      CounterStarts();
    }
  }

  lemma CounterCounts(n: nat)
    ensures Counter(n) as nat == n % 0x1_0000
  {
    CounterNumber(n);
    hide Counter;
  }

  function FromNumber(n: nat): bv8
    requires n < 256
  {
    n as bv8
  }

  lemma FromNumberBack(b: bv8)
    ensures FromNumber(ByteNumber(b)) == b
  {}

  lemma BigEndianIs(n: bv16)
    ensures BigEndian16(n) == [FromNumber(Number(n) / 256), FromNumber(Number(n) % 256)]
  {
    InBytes(n);
    FromNumberBack(High(n));
    FromNumberBack(Low(n));
    assert BigEndian16(n) == [High(n), Low(n)];
    hide BigEndian16, High, Low, FromNumber, Number, ByteNumber;
    assert Number(n) / 256 == ByteNumber(High(n)) && Number(n) % 256 == ByteNumber(Low(n));
  }

  /** RFC 3610 section 2.3: a flags byte of 1, the nonce, and the counter in two bytes. */
  lemma CounterBlockIs(nonce: Nonce, i: nat)
    requires i < 0x1_0000
    ensures CounterBlock(nonce, Counter(i)) == [1] + nonce + [FromNumber(i / 256), FromNumber(i % 256)]
  {
    CounterNumber(i);
    BigEndianIs(Counter(i));
    hide Counter, BigEndian16, FromNumber, Number;
    assert (L_LEN - 1) as bv8 == 1;
  }

  /** RFC 3610 section 2.3, byte by byte: byte k of message block i is added to byte k of the cipher of the block
      made of a 1, the nonce and i. Blocks are counted from 1. */
  ghost predicate Streamed(key: Block, nonce: Nonce, m: seq<bv8>, c: seq<bv8>)
    requires |m| < 0x1_0000
  {
    hide E;
    && |c| == |m|
    && forall j | 0 <= j < |m| ::
         c[j] == m[j] ^ E(key, [1] + nonce + [FromNumber((j / 16 + 1) / 256), FromNumber((j / 16 + 1) % 256)])[j % 16]
  }

  /** The tag: the first bytes of the authentication value, added to the cipher of the block made of a 1, the nonce
      and 0. */
  ghost predicate Tagged(key: Block, nonce: Nonce, a: Data, m: Data, micLen: bv8, u: seq<bv8>) {
    hide AuthValue;
    hide E;
    && micLen <= 16 && |u| == micLen as nat
    && forall k | 0 <= k < |u| :: u[k] == AuthValue(key, nonce, a, m, micLen)[k] ^ E(key, [1] + nonce + [0, 0])[k]
  }

  lemma StreamBlockIs(key: Block, nonce: Nonce, i: nat)
    requires i < 0x1_0000
    ensures StreamBlock(key, nonce, i) == E(key, [1] + nonce + [FromNumber(i / 256), FromNumber(i % 256)])
  {
    CounterBlockIs(nonce, i);
    hide E, Counter, CounterBlock, FromNumber;
  }

  lemma CryptIsStreamed(key: Block, nonce: Nonce, m: seq<bv8>)
    requires |m| < 0x1_0000
    ensures Streamed(key, nonce, m, CryptBytes(key, nonce, m))
  {
    hide E, StreamBlock, FromNumber;
    forall j | 0 <= j < |m|
      ensures CryptBytes(key, nonce, m)[j]
           == m[j] ^ E(key, [1] + nonce + [FromNumber((j / 16 + 1) / 256), FromNumber((j / 16 + 1) % 256)])[j % 16]
    {
      StreamBlockIs(key, nonce, j / 16 + 1);
    }
  }

  lemma MicIsTagged(key: Block, nonce: Nonce, a: Data, m: Data, micLen: bv8)
    requires micLen <= 16
    ensures Tagged(key, nonce, a, m, micLen, Mic(key, nonce, a, m, micLen))
  {
    StreamBlockIs(key, nonce, 0);
    assert FromNumber(0) == 0;
    hide E, StreamBlock, AuthValue, FromNumber;
  }

  /** There is one tag. */
  lemma TagIsUnique(key: Block, nonce: Nonce, a: Data, m: Data, micLen: bv8, u: seq<bv8>)
    requires micLen <= 16
    ensures Tagged(key, nonce, a, m, micLen, u) <==> u == Mic(key, nonce, a, m, micLen)
  {
    MicIsTagged(key, nonce, a, m, micLen);
    hide Mic, E, AuthValue;
    if Tagged(key, nonce, a, m, micLen, u) {
      assert forall k | 0 <= k < |u| :: u[k] == Mic(key, nonce, a, m, micLen)[k];
    }
  }

  lemma LastTwoBytes(head: seq<bv8>, m: bv16, head': seq<bv8>, n: bv16)
    requires |head| == |head'| && head + BigEndian16(m) == head' + BigEndian16(n)
    ensures head == head' && m == n
  {
    hide BigEndian16;
    SplitAt(head, BigEndian16(m), head', BigEndian16(n));
    BigEndian16Injective(m, n);
  }

  /** The counter blocks of the 2^16 counter values are all different. */
  lemma CounterBlocksDiffer(nonce: Nonce, i: nat, nonce': Nonce, j: nat)
    requires i < 0x1_0000 && j < 0x1_0000 && i != j
    ensures CounterBlock(nonce, Counter(i)) != CounterBlock(nonce', Counter(j))
  {
    CounterNumber(i);
    CounterNumber(j);
    hide Counter, BigEndian16, Number;
    if CounterBlock(nonce, Counter(i)) == CounterBlock(nonce', Counter(j)) {
      LastTwoBytes([(L_LEN - 1) as bv8] + nonce, Counter(i), [(L_LEN - 1) as bv8] + nonce', Counter(j));
    }
  }

  /** RFC 3610 section 2.2, for all tag lengths up to 16: 64 for additional data, 8 times half of what the length is
      above 2, rounded towards zero and kept in three bits, and 1. */
  lemma FlagsAre(hasData: bool, micLen: bv8)
    requires micLen <= 16
    ensures Flags(hasData, micLen) == (if hasData then 64 else 0)
                                      + 8 * (if micLen == 0 then 7 else if micLen < 4 then 0 else micLen / 2 - 1) + 1
  {}

  /** The first block is a counter block exactly without additional data and with a tag of one or two bytes, which
      RFC 3610 does not allow. */
  lemma FirstBlockIsCounterBlockIff(n: Nonce, hasData: bool, messageLen: bv16, micLen: bv8, n': Nonce, i: bv16)
    requires micLen <= 16
    ensures FirstBlock(n, hasData, messageLen, micLen) == CounterBlock(n', i)
            <==> !hasData && 1 <= micLen <= 3 && n == n' && messageLen == i
  {
    FlagsAre(hasData, micLen);
    var x, y := FirstBlock(n, hasData, messageLen, micLen), CounterBlock(n', i);
    assert x[0] == Flags(hasData, micLen) && y[0] == 1;
    FlagsOne(hasData, micLen);
    hide Flags, BigEndian16;
    if x == y {
      LastTwoBytes([Flags(hasData, micLen)] + n, messageLen, [1] + n', i);
      assert ([Flags(hasData, micLen)] + n)[1..] == n && ([1] + n')[1..] == n';
    }
  }

  lemma FlagsOne(hasData: bool, micLen: bv8)
    requires micLen <= 16
    ensures Flags(hasData, micLen) == 1 <==> !hasData && 1 <= micLen <= 3
  {}

  // ---------- The formatting of the authenticated input ----------

  lemma BigEndian16Injective(n: bv16, m: bv16)
    requires BigEndian16(n) == BigEndian16(m)
    ensures n == m
  {
    assert BigEndian16(n)[0] == BigEndian16(m)[0] && BigEndian16(n)[1] == BigEndian16(m)[1];
  }

  /** Tag lengths RFC 3610 allows. */
  predicate IsMicLen(micLen: bv8) {
    4 <= micLen <= 16 && micLen & 1 == 0
  }

  lemma FlagsInjective(d: bool, t: bv8, d': bool, t': bv8)
    requires IsMicLen(t) && IsMicLen(t') && Flags(d, t) == Flags(d', t')
    ensures d == d' && t == t'
  {}

  lemma FirstBlockInjective(n: Nonce, d: bool, l: bv16, t: bv8, n': Nonce, d': bool, l': bv16, t': bv8)
    requires IsMicLen(t) && IsMicLen(t')
    requires FirstBlock(n, d, l, t) == FirstBlock(n', d', l', t')
    ensures n == n' && d == d' && l == l' && t == t'
  {
    hide Flags;
    hide BigEndian16;
    hide IsMicLen;
    var b, b' := FirstBlock(n, d, l, t), FirstBlock(n', d', l', t');
    assert b[0] == Flags(d, t) && b'[0] == Flags(d', t');
    assert b[1..14] == n && b'[1..14] == n';
    assert b[14..] == BigEndian16(l) && b'[14..] == BigEndian16(l');
    FlagsInjective(d, t, d', t');
    BigEndian16Injective(l, l');
  }

  lemma Pad16Length(s: seq<bv8>, t: seq<bv8>)
    requires |s| == |t|
    ensures |Pad16(s)| == |Pad16(t)|
  {}

  lemma SplitAt(x: seq<bv8>, y: seq<bv8>, x': seq<bv8>, y': seq<bv8>)
    requires x + y == x' + y' && |x| == |x'|
    ensures x == x' && y == y'
  {
    assert x == (x + y)[..|x|] && x' == (x' + y')[..|x|];
    assert y == (x + y)[|x|..] && y' == (x' + y')[|x|..];
  }

  lemma PadInjective(s: seq<bv8>, t: seq<bv8>)
    requires |s| == |t| && Pad16(s) == Pad16(t)
    ensures s == t
  {
    hide Pad16;
    assert s == Pad16(s)[..|s|] && t == Pad16(t)[..|s|];
  }

  lemma PaddedHead(head: seq<bv8>, rest: seq<bv8>)
    ensures |head| <= |Pad16(head + rest)| && Pad16(head + rest)[..|head|] == head
  {
    hide Pad16;
    assert Pad16(head + rest)[..|head + rest|] == head + rest;
  }

  lemma SameLength(a: Data, a': Data)
    requires a.len == a'.len
    ensures |a.bytes| == |a'.bytes|
  {}

  lemma EncodedHead(a: Data)
    requires a.bytes != []
    ensures |EncodedData(a)| >= 2 && EncodedData(a)[..2] == BigEndian16(a.len)
  {
    hide BigEndian16;
    hide Pad16;
    PaddedHead(BigEndian16(a.len), a.bytes);
  }

  /** The length in front tells how much of the rest is data. */
  lemma EncodedDataInjective(a: Data, a': Data)
    requires EncodedData(a) == EncodedData(a') && (a.bytes == [] <==> a'.bytes == [])
    ensures a == a'
  {
    hide BigEndian16;
    hide Pad16;
    if a.bytes != [] {
      EncodedHead(a);
      EncodedHead(a');
      BigEndian16Injective(a.len, a'.len);
      SameLength(a, a');
      var head := BigEndian16(a.len);
      PadInjective(head + a.bytes, head + a'.bytes);
      SplitAt(head, a.bytes, head, a'.bytes);
    }
  }

  /** Two inputs that are authenticated through the same blocks are the same input: nonce, additional
      data, message and tag length can all be read back from the formatted blocks. */
  lemma FormattingInjective(n: Nonce, a: Data, m: Data, t: bv8, n': Nonce, a': Data, m': Data, t': bv8)
    requires IsMicLen(t) && IsMicLen(t')
    requires FirstBlock(n, a.bytes != [], m.len, t) == FirstBlock(n', a'.bytes != [], m'.len, t')
    requires AfterFirst(a, m) == AfterFirst(a', m')
    ensures n == n' && a == a' && m == m' && t == t'
  {
    hide FirstBlock;
    hide IsMicLen;
    hide Pad16;
    hide EncodedData;
    FirstBlockInjective(n, a.bytes != [], m.len, t, n', a'.bytes != [], m'.len, t');
    Pad16Length(m.bytes, m'.bytes);
    SplitAt(EncodedData(a), Pad16(m.bytes), EncodedData(a'), Pad16(m'.bytes));
    PadInjective(m.bytes, m'.bytes);
    EncodedDataInjective(a, a');
  }

  /** The encoding RFC 3610 section 2.2 asks for: from 0xFF00 bytes on, a marker and four bytes. */
  function StandardEncodedData(a: Data): (s: seq<bv8>)
    ensures Whole(s)
  {
    if a.bytes == [] then []
    else if a.len < 0xFF00 then Pad16(BigEndian16(a.len) + a.bytes)
    else Pad16(BigEndian16(0xFFFE) + BigEndian16(0) + BigEndian16(a.len) + a.bytes)
  }

  /** The code follows the standard exactly up to 0xFEFF bytes of additional data. */
  lemma EncodingIsStandardIff(a: Data)
    ensures EncodedData(a) == StandardEncodedData(a) <==> a.bytes == [] || a.len < 0xFF00
  {
    hide BigEndian16;
    if a.bytes != [] && a.len >= 0xFF00 && EncodedData(a) == StandardEncodedData(a) {
      assert EncodedData(a)[..2] == BigEndian16(a.len);
      assert StandardEncodedData(a)[..2] == BigEndian16(0xFFFE);
      BigEndian16Injective(a.len, 0xFFFE);
      assert false;
    }
  }

  // ---------- Encryption and decryption ----------

  lemma CryptUndone(key: Block, nonce: Nonce, m: Data)
    ensures Crypt(key, nonce, Crypt(key, nonce, m)) == m
  {
    hide AesField.Xor;
    hide StreamBlock;
    var c := CryptBytes(key, nonce, m.bytes);
    forall j | 0 <= j < |m.bytes|
      ensures CryptBytes(key, nonce, c)[j] == m.bytes[j]
    {
      var s := StreamBlock(key, nonce, j / 16 + 1)[j % 16];
      AesField.XorRules(m.bytes[j], s, s);
      AesField.XorRules(s, 0, 0);
      AesField.XorRules(m.bytes[j], 0, 0);
    }
    assert CryptBytes(key, nonce, c) == m.bytes;
  }

  /** What decryption returns for a ciphertext and a received tag. */
  function Decrypted(key: Block, nonce: Nonce, a: Data, c: Data, micLen: bv8, mic: seq<bv8>): (r: (Data, bool))
    requires micLen <= 16
  {
    hide Crypt;
    hide Mic;
    var m := Crypt(key, nonce, c);
    (m, mic == Mic(key, nonce, a, m, micLen))
  }

  /** Decrypting what was encrypted returns the message, and of all tags of that length accepts the
      one that encryption computed and no other. */
  lemma DecryptUndoesEncrypt(key: Block, nonce: Nonce, a: Data, m: Data, micLen: bv8, mic: seq<bv8>)
    requires micLen <= 16
    ensures Decrypted(key, nonce, a, Crypt(key, nonce, m), micLen, mic)
         == (m, mic == Mic(key, nonce, a, m, micLen))
  {
    hide Crypt;
    hide Mic;
    CryptUndone(key, nonce, m);
  }

  lemma {:induction false} CbcMacAppend(key: Block, x: Block, s: seq<bv8>, t: seq<bv8>)
    requires Whole(s) && Whole(t)
    ensures Whole(s + t)
    ensures CbcMac(key, x, s + t) == CbcMac(key, CbcMac(key, x, s), t)
    decreases |s|
  {
    hide E;
    hide XorBlock;
    if s == [] {
      assert s + t == t;
    } else {
      assert (s + t)[..16] == s[..16] && (s + t)[16..] == s[16..] + t;
      CbcMacAppend(key, E(key, XorBlock(x, s[..16])), s[16..], t);
    }
  }

  // ---------- The code ----------

  method Memcpy(dst: array<bv8>, d: nat, src: array<bv8>, s: nat, size: nat)
    requires d + size <= dst.Length && s + size <= src.Length && dst != src
    modifies dst
    ensures dst[..] == old(dst[..d]) + src[s..s + size] + old(dst[d + size..])
  {
    forall i | 0 <= i < size {
      dst[d + i] := src[s + i];
    }
  }

  method Memset(dst: array<bv8>, d: nat, size: nat)
    requires d + size <= dst.Length
    modifies dst
    ensures dst[..] == old(dst[..d]) + Zeros(size) + old(dst[d + size..])
  {
    forall i | 0 <= i < size {
      dst[d + i] := 0;
    }
  }

  /** The value as it lies in memory, least significant byte first. */
  function LittleEndian16(n: bv16): (s: seq<bv8>)
    ensures |s| == 2
  {
    [(n & 0xff) as bv8, (n >> 8) as bv8]
  }

  /** Writes the bytes of `src` backwards. */
  method UtilsReverseMemcpy(dst: array<bv8>, d: nat, src: seq<bv8>)
    requires d + |src| <= dst.Length
    modifies dst
    ensures dst[d..d + |src|] == Reversed(src)
    ensures dst[..d] == old(dst[..d]) && dst[d + |src|..] == old(dst[d + |src|..])
  {
    var size := |src|;
    while size > 0
      invariant 0 <= size <= |src|
      invariant forall i | 0 <= i < |src| - size :: dst[d..d + |src|][i] == Reversed(src)[i]
      invariant dst[..d] == old(dst[..d]) && dst[d + |src|..] == old(dst[d + |src|..])
    {
      size := size - 1;
      dst[d + (|src| - 1 - size)] := src[size];
    }
  }

  function Reversed(s: seq<bv8>): (r: seq<bv8>)
    ensures |r| == |s|
  {
    seq(|s|, i requires 0 <= i < |s| => s[|s| - 1 - i])
  }

  lemma ReversedIsBigEndian(n: bv16)
    ensures Reversed(LittleEndian16(n)) == BigEndian16(n)
  {}

  function XorBytes(a: seq<bv8>, b: seq<bv8>): (c: seq<bv8>)
    requires |a| == |b|
    ensures |c| == |a|
  {
    hide AesField.Xor;
    seq(|a|, i requires 0 <= i < |a| => AesField.Xor(a[i], b[i]))
  }

  /** Bytewise XOR from the end. The destination may be one of the sources, at the same place. */
  method UtilsXor(dst: array<bv8>, d: nat, a: array<bv8>, ai: nat, b: array<bv8>, bi: nat, size: nat)
    requires d + size <= dst.Length && ai + size <= a.Length && bi + size <= b.Length
    requires (dst == a ==> d == ai) && (dst == b ==> d == bi)
    modifies dst
    ensures dst[..] == old(dst[..d]) + XorBytes(old(a[ai..ai + size]), old(b[bi..bi + size])) + old(dst[d + size..])
  {
    hide AesField.Xor;
    ghost var p, q, before := a[ai..ai + size], b[bi..bi + size], dst[..];
    var n := size;
    while n > 0
      invariant 0 <= n <= size
      invariant forall i | 0 <= i < dst.Length ::
                  dst[i] == if d + n <= i < d + size then AesField.Xor(p[i - d], q[i - d]) else before[i]
      invariant dst != a ==> a[ai..ai + size] == p
      invariant dst != b ==> b[bi..bi + size] == q
    {
      n := n - 1;
      assert a[ai + n] == p[n] by { assert dst != a ==> a[ai + n] == a[ai..ai + size][n]; }
      assert b[bi + n] == q[n] by { assert dst != b ==> b[bi + n] == b[bi..bi + size][n]; }
      dst[d + n] := AesField.Xor(a[ai + n], b[bi + n]);
    }
  }

  /** One block through the cipher; the library works on its own copies of the arguments. */
  method AesEncrypt(ctx: Context, key: array<bv8>, clear: array<bv8>, cipher: array<bv8>)
    requires ctx.Valid() && key.Length == clear.Length == cipher.Length == 16
    requires key != ctx.roundKey && clear != ctx.roundKey && cipher != ctx.roundKey && cipher != key
    modifies ctx.roundKey, cipher
    ensures ctx.Valid() && cipher[..] == E(key[..], old(clear[..]))
  {
    hide CipherOf;
    hide KeyScheduleOf;
    var keyCopy, clearCopy, out := new bv8[16], new bv8[16], new bv8[16];
    Memcpy(keyCopy, 0, key, 0, 16);
    Memcpy(clearCopy, 0, clear, 0, 16);
    assert keyCopy[..] == key[..] && clearCopy[..] == clear[..];
    EcbEncrypt(ctx, clearCopy, keyCopy, out);
    Memcpy(cipher, 0, out, 0, 16);
    assert cipher[..] == out[..];
  }

  /** Block n of a padded input: a full one, or the last one. */
  lemma PaddedBlock(s: seq<bv8>, n: nat)
    requires 16 * n < |s|
    ensures 16 * n + 16 <= |Pad16(s)|
    ensures 16 * n + 16 <= |s| ==> Pad16(s)[16 * n..16 * n + 16] == s[16 * n..16 * n + 16]
    ensures 16 * n + 16 > |s| ==>
              && Pad16(s)[16 * n..16 * n + 16] == s[16 * n..] + Zeros(16 - (|s| - 16 * n))
              && |Pad16(s)| == 16 * n + 16
  {
    PaddedLength(|s|, n);
    var p := Pad16(s);
    if 16 * n + 16 > |s| {
      assert p == s + Zeros(16 - (|s| - 16 * n));
      assert p[16 * n..] == s[16 * n..] + Zeros(16 - (|s| - 16 * n));
      assert p[16 * n..16 * n + 16] == p[16 * n..];
    }
  }

  lemma PaddedLength(length: nat, n: nat)
    requires 16 * n < length
    ensures 16 * n + 16 > length ==> (16 - length % 16) % 16 == 16 - (length - 16 * n)
    ensures 16 * n + 16 <= length + (16 - length % 16) % 16
  {}

  /** Fills B from `offset` on with what is left of the data, zeros behind if that is not enough. */
  method FillBlock(data: array<bv8>, pos: nat, B: array<bv8>, offset: nat) returns (taken: nat)
    requires B.Length == 16 && offset < 16 && pos <= data.Length && data != B
    modifies B
    ensures taken == if data.Length - pos < 16 - offset then data.Length - pos else 16 - offset
    ensures B[..] == old(B[..offset]) + data[pos..pos + taken] + Zeros(16 - offset - taken)
  {
    var size := data.Length - pos;
    if size < 16 - offset {
      Memcpy(B, offset, data, pos, size);
      Memset(B, offset + size, 16 - (offset + size));
      taken := size;
    } else {
      Memcpy(B, offset, data, pos, 16 - offset);
      taken := 16 - offset;
    }
  }

  /** X := E(key, X xor B), through B. */
  method ChainBlock(ctx: Context, key: array<bv8>, B: array<bv8>, X: array<bv8>)
    requires ctx.Valid() && key.Length == B.Length == X.Length == 16
    requires key != ctx.roundKey && B != ctx.roundKey && X != ctx.roundKey && key != X && key != B && B != X
    modifies ctx.roundKey, B, X
    ensures ctx.Valid() && X[..] == E(key[..], XorBlock(old(X[..]), old(B[..])))
  {
    hide E;
    UtilsXor(B, 0, X, 0, B, 0, 16);
    assert old(X[0..16]) == old(X[..]) && old(B[0..16]) == old(B[..]);
    assert B[..] == XorBlock(old(X[..]), old(B[..]));
    AesEncrypt(ctx, key, B, X);
  }

  lemma MacOneMore(key: Block, x: Block, s: seq<bv8>, n: nat)
    requires Whole(s) && 16 * n + 16 <= |s|
    ensures Whole(s[..16 * n]) && Whole(s[..16 * n + 16])
    ensures CbcMac(key, x, s[..16 * n + 16]) == E(key, XorBlock(CbcMac(key, x, s[..16 * n]), s[16 * n..16 * n + 16]))
  {
    hide E;
    hide XorBlock;
    var before, b := s[..16 * n], s[16 * n..16 * n + 16];
    assert s[..16 * n + 16] == before + b;
    CbcMacAppend(key, x, before, b);
    assert b[..16] == b && b[16..] == [];
  }

  /** The offset-carrying loop: whatever already stands in B before `offset` goes in front of the data. */
  method AuthenticateBlocks(ctx: Context, key: array<bv8>, data: array<bv8>, B: array<bv8>, offset: nat, X: array<bv8>)
    requires ctx.Valid() && key.Length == B.Length == X.Length == 16
    requires key != ctx.roundKey && B != ctx.roundKey && X != ctx.roundKey && key != X && key != B && B != X
    requires data != B && data != X && data != ctx.roundKey
    requires offset < 16 && (offset == 0 || data.Length > 0)
    modifies ctx.roundKey, B, X
    ensures ctx.Valid() && X[..] == CbcMac(key[..], old(X[..]), Pad16(old(B[..offset]) + data[..]))
  {
    hide E;
    hide XorBlock;
    hide Pad16;
    hide CbcMac;
    ghost var s, x := B[..offset] + data[..], X[..];
    var pos, off := 0, offset;
    ghost var n := 0;
    MacOfNothing(key[..], x, Pad16(s));
    while pos < data.Length
      invariant ctx.Valid() && pos <= data.Length && off == (if n == 0 then offset else 0)
      invariant n == 0 ==> pos == 0 && B[..offset] == s[..offset]
      invariant n > 0 ==> offset + pos == if 16 * n < |s| then 16 * n else |s|
      invariant 16 * n <= |Pad16(s)| && (n > 0 && pos == data.Length ==> 16 * n == |Pad16(s)|)
      invariant Whole(Pad16(s)[..16 * n]) && X[..] == CbcMac(key[..], x, Pad16(s)[..16 * n])
      decreases data.Length - pos
    {
      PaddedBlock(s, n);
      PaddedExactly(s, n);
      var taken := FillBlock(data, pos, B, off);
      assert B[..] == Pad16(s)[16 * n..16 * n + 16] by {
        LeftOver(s, offset, data[..], off, pos, taken, n);
      }
      pos := pos + taken;
      off := 0;
      MacOneMore(key[..], x, Pad16(s), n);
      ChainBlock(ctx, key, B, X);
      n := n + 1;
    }
    if n == 0 {
      NothingToPad(s);
    }
    assert Pad16(s)[..16 * n] == Pad16(s);
  }

  lemma MacOfNothing(key: Block, x: Block, s: seq<bv8>)
    ensures Whole(s[..0]) && CbcMac(key, x, s[..0]) == x
  {}

  lemma NothingToPad(s: seq<bv8>)
    ensures s == [] ==> Pad16(s) == []
  {}

  lemma PaddedExactly(s: seq<bv8>, n: nat)
    ensures 16 * n + 16 == |s| ==> Pad16(s) == s
  {}

  /** What the fill step puts together is the rest of prefix and data. */
  lemma LeftOver(s: seq<bv8>, offset: nat, data: seq<bv8>, off: nat, pos: nat, taken: nat, n: nat)
    requires |s| == offset + |data| && s[offset..] == data && pos + taken <= |data|
    requires if n == 0 then off == offset < 16 && pos == 0 else off == 0 && offset + pos == 16 * n
    ensures s[16 * n..16 * n + off] + data[pos..pos + taken] == s[16 * n..16 * n + off + taken]
  {
    assert data[pos..pos + taken] == s[offset..][pos..pos + taken] == s[offset + pos..offset + pos + taken];
  }

  lemma LengthIsZero(d: Data)
    ensures d.len > 0 <==> d.bytes != []
  {}

  /** A flags byte, the nonce and a 16-bit number: the layout of B_0 and of the counter blocks. */
  method WriteHeader(block: array<bv8>, flags: bv8, nonce: array<bv8>, n: bv16)
    requires block.Length == 16 && nonce.Length == NONCE_LEN && block != nonce
    modifies block
    ensures block[..] == [flags] + nonce[..] + BigEndian16(n)
  {
    hide LittleEndian16;
    hide BigEndian16;
    block[0] := flags;
    Memcpy(block, 1, nonce, 0, NONCE_LEN);
    assert block[..14] == [flags] + nonce[..];
    WriteNumber(block, n);
    assert block[..] == block[..14] + block[14..16];
  }

  /** Overwrites the last two bytes of a block with a number. */
  method WriteNumber(block: array<bv8>, n: bv16)
    requires block.Length == 16
    modifies block
    ensures block[..] == old(block[..14]) + BigEndian16(n)
  {
    hide LittleEndian16;
    hide BigEndian16;
    ReversedIsBigEndian(n);
    UtilsReverseMemcpy(block, 14, LittleEndian16(n));
    assert block[..] == block[..14] + block[14..16];
  }

  /** The additional data, behind its length. */
  method AuthenticateData(ctx: Context, key: array<bv8>, a: array<bv8>, aLen: bv16, B: array<bv8>, X: array<bv8>)
    requires ctx.Valid() && key.Length == B.Length == X.Length == 16 && aLen as nat == a.Length
    requires key != ctx.roundKey && B != ctx.roundKey && X != ctx.roundKey && a != ctx.roundKey
    requires key != X && key != B && B != X && a != B && a != X
    modifies ctx.roundKey, B, X
    ensures ctx.Valid() && X[..] == CbcMac(key[..], old(X[..]), EncodedData(Sized(a[..], aLen)))
  {
    hide LittleEndian16;
    hide BigEndian16;
    hide Pad16;
    LengthIsZero(Sized(a[..], aLen));
    EmptyMac(key[..], X[..]);
    hide CbcMac;
    if aLen > 0 {
      ReversedIsBigEndian(aLen);
      UtilsReverseMemcpy(B, 0, LittleEndian16(aLen));
      assert B[..2] == BigEndian16(aLen);
      AuthenticateBlocks(ctx, key, a, B, 2, X);
    }
  }

  lemma EmptyMac(key: Block, x: Block)
    ensures CbcMac(key, x, []) == x
  {}

  /** The authentication value: B_0 first, then the additional data, then the message. */
  lemma AuthInSteps(key: Block, nonce: Nonce, a: Data, m: Data, micLen: bv8)
    ensures var x1 := E(key, [Flags(a.bytes != [], micLen)] + nonce + BigEndian16(m.len));
            CbcMac(key, CbcMac(key, x1, EncodedData(a)), Pad16(m.bytes)) == AuthValue(key, nonce, a, m, micLen)
  {
    hide E;
    hide CbcMac;
    hide Flags;
    hide BigEndian16;
    hide Pad16;
    hide EncodedData;
    CbcMacAppend(key, E(key, FirstBlock(nonce, a.bytes != [], m.len, micLen)), EncodedData(a), Pad16(m.bytes));
  }

  /** X_1: the cipher of B_0. */
  method FirstMac(ctx: Context, key: array<bv8>, nonce: array<bv8>, mLen: bv16, aLen: bv16, micLen: bv8,
                  B: array<bv8>, X: array<bv8>)
    requires ctx.Valid() && key.Length == B.Length == X.Length == 16 && nonce.Length == NONCE_LEN
    requires key != ctx.roundKey && B != ctx.roundKey && X != ctx.roundKey
    requires key != X && key != B && B != X && nonce != B
    modifies ctx.roundKey, B, X
    ensures ctx.Valid()
    ensures X[..] == E(key[..], [Flags(aLen > 0, micLen)] + old(nonce[..]) + BigEndian16(mLen))
  {
    hide E;
    hide Flags;
    hide BigEndian16;
    WriteHeader(B, Flags(aLen > 0, micLen), nonce, mLen);
    AesEncrypt(ctx, key, B, X);
  }

  /** Everything the loop authenticates, one part after the other. */
  method AuthenticateParts(ctx: Context, key: array<bv8>, nonce: array<bv8>, m: array<bv8>, mLen: bv16,
                           a: array<bv8>, aLen: bv16, micLen: bv8, B: array<bv8>, X: array<bv8>)
    requires ctx.Valid() && key.Length == B.Length == X.Length == 16 && nonce.Length == NONCE_LEN
    requires mLen as nat == m.Length && aLen as nat == a.Length
    requires key != ctx.roundKey && m != ctx.roundKey && a != ctx.roundKey && B != ctx.roundKey && X != ctx.roundKey
    requires key != X && key != B && B != X && nonce != B && nonce != X && a != B && a != X && m != B && m != X
    modifies ctx.roundKey, B, X
    ensures ctx.Valid()
    ensures X[..] == old(AuthValue(key[..], nonce[..], Sized(a[..], aLen), Sized(m[..], mLen), micLen))
  {
    hide E;
    hide CbcMac;
    hide Flags;
    hide BigEndian16;
    hide Pad16;
    hide AuthValue;
    ghost var dm, da: Data := Sized(m[..], mLen), Sized(a[..], aLen);
    LengthIsZero(da);
    AuthInSteps(key[..], nonce[..], da, dm, micLen);
    FirstMac(ctx, key, nonce, mLen, aLen, micLen, B, X);
    hide EncodedData;
    AuthenticateData(ctx, key, a, aLen, B, X);
    assert B[..0] + m[..] == m[..];
    AuthenticateBlocks(ctx, key, m, B, 0, X);
  }

  /** The authentication value, cut to the length of the tag. */
  method Authenticate(ctx: Context, key: array<bv8>, nonce: array<bv8>, m: array<bv8>, mLen: bv16,
                      a: array<bv8>, aLen: bv16, micLen: bv8, T: array<bv8>)
    requires ctx.Valid() && key.Length == 16 && nonce.Length == NONCE_LEN
    requires mLen as nat == m.Length && aLen as nat == a.Length && micLen <= 16 && micLen as nat == T.Length
    requires key != ctx.roundKey && m != ctx.roundKey && a != ctx.roundKey && T != ctx.roundKey
    modifies ctx.roundKey, T
    ensures ctx.Valid()
    ensures T[..] == old(AuthValue(key[..], nonce[..], Sized(a[..], aLen), Sized(m[..], mLen), micLen)[..micLen as nat])
  {
    hide AuthValue;
    var B, X := new bv8[16], new bv8[16];
    AuthenticateParts(ctx, key, nonce, m, mLen, a, aLen, micLen, B, X);
    Memcpy(T, 0, X, 0, micLen as nat);
  }

  /** Key stream block i, XORed over a stretch of the message that lies in that block. */
  method CryptNext(ctx: Context, key: array<bv8>, m: array<bv8>, out: array<bv8>, A: array<bv8>, S: array<bv8>,
                   ghost nonce: Nonce, i: nat, at: nat, size: nat)
    requires ctx.Valid() && key.Length == A.Length == S.Length == 16 && out.Length == m.Length
    requires key != ctx.roundKey && m != ctx.roundKey && out != ctx.roundKey && A != ctx.roundKey && S != ctx.roundKey
    requires A != S && key != A && key != S && key != out && m != A && m != S && out != A && out != S
    requires A[..14] == [(L_LEN - 1) as bv8] + nonce && at + size <= m.Length && size <= 16
    modifies ctx.roundKey, out, A, S
    ensures ctx.Valid() && A[..14] == old(A[..14])
    ensures out[..] == old(out[..at])
                       + XorBytes(old(m[at..at + size]), StreamBlock(key[..], nonce, i)[..size])
                       + old(out[at + size..])
  {
    hide StreamBlock;
    hide XorBytes;
    StreamInto(ctx, key, A, S, nonce, i);
    UtilsXor(out, at, m, at, S, 0, size);
  }

  /** Counter mode from counter 0 on: S_1, S_2, ... are XORed over the message, in place or not. */
  method CryptBuffer(ctx: Context, key: array<bv8>, m: array<bv8>, out: array<bv8>,
                     A: array<bv8>, S: array<bv8>, ghost nonce: Nonce)
    requires ctx.Valid() && key.Length == A.Length == S.Length == 16 && out.Length == m.Length
    requires key != ctx.roundKey && m != ctx.roundKey && out != ctx.roundKey && A != ctx.roundKey && S != ctx.roundKey
    requires A != S && key != A && key != S && key != out && m != A && m != S && out != A && out != S
    requires A[..14] == [(L_LEN - 1) as bv8] + nonce
    modifies ctx.roundKey, out, A, S
    ensures ctx.Valid() && out[..] == CryptBytes(key[..], nonce, old(m[..]))
    ensures A[..14] == old(A[..14])
  {
    hide StreamBlock;
    hide BigEndian16;
    hide AesField.Xor;
    hide CryptBytes;
    hide XorBytes;
    ghost var p, c := m[..], CryptBytes(key[..], nonce, m[..]);
    var octets, i := m.Length, 0;
    while octets > 0
      invariant ctx.Valid() && A[..14] == [(L_LEN - 1) as bv8] + nonce
      invariant 0 <= octets <= |p| && octets == if 16 * i < |p| then |p| - 16 * i else 0
      invariant out[..|p| - octets] == c[..|p| - octets]
      invariant m[|p| - octets..] == p[|p| - octets..]
      decreases octets
    {
      i := i + 1;
      var at := 16 * (i - 1);
      var size := if octets < 16 then octets else 16;
      ghost var before, rest := out[..], m[at..];
      assert m[at..at + size] == p[at..at + size] && rest == p[at..] by { Slices(m[..], p, at, size); }
      CryptNext(ctx, key, m, out, A, S, nonce, i, at, size);
      CryptSlice(key[..], nonce, p, i, size);
      Extended(c, before, out[..], at, size, XorBytes(p[at..at + size], StreamBlock(key[..], nonce, i)[..size]));
      if m == out {
        assert m[at + size..] == before[at + size..] == rest[size..];
      } else {
        assert m[at + size..] == rest[size..];
      }
      octets := octets - size;
    }
    assert out[..] == out[..|p|] && c[..|p|] == c;
  }

  lemma MicByByte(key: Block, nonce: Nonce, a: Data, m: Data, micLen: bv8, t: Block, s: Block)
    requires micLen <= 16
    requires t == AuthValue(key, nonce, a, m, micLen) && s == StreamBlock(key, nonce, 0)
    ensures Mic(key, nonce, a, m, micLen) == XorBytes(t[..micLen as nat], s[..micLen as nat])
  {
    hide AesField.Xor;
    hide AuthValue;
    hide StreamBlock;
  }

  lemma Slices(now: seq<bv8>, p: seq<bv8>, at: nat, size: nat)
    requires |now| == |p| && at + size <= |p| && now[at..] == p[at..]
    ensures now[at..at + size] == p[at..at + size]
  {
    assert now[at..at + size] == now[at..][..size] && p[at..at + size] == p[at..][..size];
  }

  /** A stretch of the ciphertext that lies in one block is the XOR with that block's key stream. */
  lemma CryptSlice(key: Block, nonce: Nonce, p: seq<bv8>, i: nat, size: nat)
    requires i > 0 && size <= 16 && 16 * (i - 1) + size <= |p|
    ensures var at := 16 * (i - 1);
            CryptBytes(key, nonce, p)[at..at + size] == XorBytes(p[at..at + size], StreamBlock(key, nonce, i)[..size])
  {
    hide StreamBlock;
    hide AesField.Xor;
    var at := 16 * (i - 1);
    var c := CryptBytes(key, nonce, p);
    var left, right := c[at..at + size], XorBytes(p[at..at + size], StreamBlock(key, nonce, i)[..size]);
    forall k | 0 <= k < size
      ensures left[k] == right[k]
    {
      InBlock(i, k);
      assert left[k] == c[at + k];
      assert p[at..at + size][k] == p[at + k];
    }
  }

  lemma InBlock(i: nat, k: nat)
    requires i > 0 && k < 16
    ensures (16 * (i - 1) + k) / 16 + 1 == i && (16 * (i - 1) + k) % 16 == k
  {}

  lemma Extended(c: seq<bv8>, before: seq<bv8>, after: seq<bv8>, at: nat, size: nat, piece: seq<bv8>)
    requires |c| == |before| == |after| && at + size <= |c| && |piece| == size
    requires before[..at] == c[..at] && c[at..at + size] == piece
    requires after == before[..at] + piece + before[at + size..]
    ensures after[..at + size] == c[..at + size] && after[at + size..] == before[at + size..]
  {
    assert c[..at + size] == c[..at] + c[at..at + size];
  }

  method StreamInto(ctx: Context, key: array<bv8>, A: array<bv8>, S: array<bv8>, ghost nonce: Nonce, i: nat)
    requires ctx.Valid() && key.Length == A.Length == S.Length == 16
    requires key != ctx.roundKey && A != ctx.roundKey && S != ctx.roundKey && A != S && key != A && key != S
    requires A[..14] == [(L_LEN - 1) as bv8] + nonce
    modifies ctx.roundKey, A, S
    ensures ctx.Valid() && S[..] == StreamBlock(key[..], nonce, i) && A[..14] == old(A[..14])
  {
    hide E;
    hide BigEndian16;
    hide Counter;
    WriteNumber(A, Counter(i));
    assert A[..] == CounterBlock(nonce, Counter(i));
    AesEncrypt(ctx, key, A, S);
  }

  /** The argument structure: pointers with their lengths. */
  datatype CcmData = CcmData(key: array<bv8>, nonce: array<bv8>, m: array<bv8>, mLen: bv16,
                             a: array<bv8>, aLen: bv16, out: array<bv8>, mic: array<bv8>, micLen: bv8)
  {
    /** Lengths agree, and the output may be the message but none of the other buffers. */
    ghost predicate Valid(ctx: Context)
      reads ctx
    {
      && ctx.Valid()
      && key.Length == 16 && nonce.Length == NONCE_LEN && out.Length == m.Length
      && mLen as nat == m.Length && aLen as nat == a.Length && micLen as nat == mic.Length && micLen <= 16
      && out != key && out != nonce && out != a && out != mic
      && ctx.roundKey != key && ctx.roundKey != nonce && ctx.roundKey != m && ctx.roundKey != a
      && ctx.roundKey != out && ctx.roundKey != mic
    }

    ghost function Key(): Block
      requires key.Length == 16
      reads key
    {
      key[..]
    }

    ghost function NonceBytes(): Nonce
      requires nonce.Length == NONCE_LEN
      reads nonce
    {
      nonce[..]
    }

    ghost function Message(): Data
      requires mLen as nat == m.Length
      reads m
    {
      Sized(m[..], mLen)
    }

    ghost function Additional(): Data
      requires aLen as nat == a.Length
      reads a
    {
      Sized(a[..], aLen)
    }
  }

  /** Counter block 0, and S_0 from it. */
  method StartStream(ctx: Context, key: array<bv8>, nonce: array<bv8>, A: array<bv8>, S: array<bv8>)
    requires ctx.Valid() && key.Length == A.Length == S.Length == 16 && nonce.Length == NONCE_LEN
    requires key != ctx.roundKey && nonce != ctx.roundKey && A != ctx.roundKey && S != ctx.roundKey
    requires A != S && key != A && key != S && nonce != A && nonce != S
    modifies ctx.roundKey, A, S
    ensures ctx.Valid() && S[..] == StreamBlock(key[..], nonce[..], 0)
    ensures A[..14] == [(L_LEN - 1) as bv8] + nonce[..]
  {
    hide E;
    hide BigEndian16;
    WriteHeader(A, (L_LEN - 1) as bv8, nonce, 0);
    AesEncrypt(ctx, key, A, S);
  }

  /** T xor S_0 into `mic`; leaves the counter block set up with counter 0. */
  method MakeMic(ctx: Context, d: CcmData, m: array<bv8>, A: array<bv8>, S: array<bv8>, mic: array<bv8>)
    requires d.Valid(ctx) && m.Length == d.m.Length && mic.Length == d.mic.Length
    requires m != ctx.roundKey && mic != ctx.roundKey && mic !in {d.key, d.nonce, m, d.a}
    requires A.Length == S.Length == 16 && A != S && A !in {ctx.roundKey, d.key, d.nonce, m, d.a, mic}
    requires S !in {ctx.roundKey, d.key, d.nonce, m, d.a, mic}
    modifies ctx.roundKey, A, S, mic
    ensures ctx.Valid()
    ensures mic[..] == old(Mic(d.Key(), d.NonceBytes(), d.Additional(), Sized(m[..], d.mLen), d.micLen))
    ensures A[..14] == [(L_LEN - 1) as bv8] + d.nonce[..]
  {
    hide AuthValue;
    hide StreamBlock;
    hide XorBytes;
    hide Mic;
    hide BigEndian16;
    var T := new bv8[d.micLen as nat];
    Authenticate(ctx, d.key, d.nonce, m, d.mLen, d.a, d.aLen, d.micLen, T);
    StartStream(ctx, d.key, d.nonce, A, S);
    ghost var t := AuthValue(d.Key(), d.NonceBytes(), d.Additional(), Sized(m[..], d.mLen), d.micLen);
    ghost var s := StreamBlock(d.Key(), d.NonceBytes(), 0);
    assert T[0..d.micLen as nat] == t[..d.micLen as nat] && S[0..d.micLen as nat] == s[..d.micLen as nat];
    UtilsXor(mic, 0, T, 0, S, 0, d.micLen as nat);
    MicByByte(d.Key(), d.NonceBytes(), d.Additional(), Sized(m[..], d.mLen), d.micLen, t, s);
  }

  method Encrypt(ctx: Context, d: CcmData)
    requires d.Valid(ctx) && d.mic !in {d.key, d.nonce, d.m, d.a}
    modifies ctx.roundKey, d.out, d.mic
    ensures ctx.Valid()
    ensures d.out[..] == old(Crypt(d.Key(), d.NonceBytes(), d.Message()).bytes)
    ensures d.mic[..] == old(Mic(d.Key(), d.NonceBytes(), d.Additional(), d.Message(), d.micLen))
    ensures Streamed(old(d.Key()), old(d.NonceBytes()), old(d.m[..]), d.out[..])
    ensures Tagged(old(d.Key()), old(d.NonceBytes()), old(d.Additional()), old(d.Message()), d.micLen, d.mic[..])
  {
    hide Mic;
    hide CryptBytes;
    hide Streamed;
    hide Tagged;
    CryptIsStreamed(d.Key(), d.NonceBytes(), d.m[..]);
    MicIsTagged(d.Key(), d.NonceBytes(), d.Additional(), d.Message(), d.micLen);
    var A, S := new bv8[16], new bv8[16];
    MakeMic(ctx, d, d.m, A, S, d.mic);
    CryptBuffer(ctx, d.key, d.m, d.out, A, S, d.nonce[..]);
  }

  /** The first half of decryption: the received tag is unmasked into S, and the message recovered. */
  method Recover(ctx: Context, d: CcmData, A: array<bv8>, S: array<bv8>)
    requires d.Valid(ctx) && A.Length == S.Length == 16 && A != S
    requires A !in {ctx.roundKey, d.key, d.nonce, d.m, d.a, d.mic, d.out}
    requires S !in {ctx.roundKey, d.key, d.nonce, d.m, d.a, d.mic, d.out}
    modifies ctx.roundKey, d.out, A, S
    ensures ctx.Valid() && d.out[..] == CryptBytes(d.Key(), d.NonceBytes(), old(d.m[..]))
  {
    hide StreamBlock;
    hide CryptBytes;
    hide XorBytes;
    StartStream(ctx, d.key, d.nonce, A, S);
    UtilsXor(S, 0, d.mic, 0, S, 0, d.micLen as nat);
    CryptBuffer(ctx, d.key, d.m, d.out, A, S, d.nonce[..]);
  }

  /** The message is recovered first and authenticated as it was recovered. */
  method Decrypt(ctx: Context, d: CcmData) returns (micPassed: bool)
    requires d.Valid(ctx)
    modifies ctx.roundKey, d.out
    ensures ctx.Valid()
    ensures (Sized(d.out[..], d.mLen), micPassed)
         == old(Decrypted(d.Key(), d.NonceBytes(), d.Additional(), d.Message(), d.micLen, d.mic[..]))
    ensures Streamed(old(d.Key()), old(d.NonceBytes()), old(d.m[..]), d.out[..])
    ensures micPassed <==> Tagged(old(d.Key()), old(d.NonceBytes()), old(d.Additional()), Sized(d.out[..], d.mLen),
                                  d.micLen, old(d.mic[..]))
  {
    hide Mic;
    hide CryptBytes;
    hide Streamed;
    hide Tagged;
    CryptIsStreamed(d.Key(), d.NonceBytes(), d.m[..]);
    ghost var text: Data := Crypt(d.Key(), d.NonceBytes(), d.Message());
    MicIsTagged(d.Key(), d.NonceBytes(), d.Additional(), text, d.micLen);
    TagIsUnique(d.Key(), d.NonceBytes(), d.Additional(), text, d.micLen, d.mic[..]);
    var A, S := new bv8[16], new bv8[16];
    Recover(ctx, d, A, S);
    var mic := new bv8[d.micLen as nat];
    MakeMic(ctx, d, d.out, A, S, mic);
    micPassed := mic[..] == d.mic[..];
  }
}
