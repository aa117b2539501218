/** The public calls of cherrysim/aes.c: one block (ECB) and cipher block chaining as NIST SP 800-38A
    section 6.2 defines it. Pointers are an array and an offset, so that aliasing shows. */
module AesModes {
  import opened Aes

  predicate Whole(s: seq<bv8>) {
    |s| % 16 == 0
  }

  // ---------- Reference: cipher block chaining ----------

  function CbcEncrypt(k: Schedule, iv: Block, p: seq<bv8>): (c: seq<bv8>)
    requires Whole(p)
    ensures |c| == |p|
    decreases |p|
  {
    hide CipherOf;
    hide XorBlock;
    if p == [] then []
    else
      var first := CipherOf(XorBlock(p[..16], iv), k);
      first + CbcEncrypt(k, first, p[16..])
  }

  function CbcDecrypt(k: Schedule, iv: Block, c: seq<bv8>): (p: seq<bv8>)
    requires Whole(c)
    ensures |p| == |c|
    decreases |c|
  {
    hide InvCipherOf;
    hide XorBlock;
    if c == [] then []
    else XorBlock(InvCipherOf(c[..16], k), iv) + CbcDecrypt(k, c[..16], c[16..])
  }

  /** The block that chains into whatever comes next. */
  function LastBlock(iv: Block, c: seq<bv8>): Block
    requires Whole(c)
  {
    if c == [] then iv else c[|c| - 16..]
  }

  /** What encryption feeds to the cipher, and leaves behind in its input buffer. */
  function Fed(k: Schedule, iv: Block, p: seq<bv8>): (f: seq<bv8>)
    requires Whole(p)
    ensures |f| == |p|
    decreases |p|
  {
    hide CipherOf;
    hide XorBlock;
    if p == [] then []
    else XorBlock(p[..16], iv) + Fed(k, CipherOf(XorBlock(p[..16], iv), k), p[16..])
  }

  /** What the code's decryption computes when output and input are one buffer: the chaining pointer
      then points at plaintext, because the ciphertext it was set to has been overwritten. */
  function CbcDecryptInPlace(k: Schedule, iv: Block, c: seq<bv8>): (p: seq<bv8>)
    requires Whole(c)
    ensures |p| == |c|
    decreases |c|
  {
    hide InvCipherOf;
    hide XorBlock;
    if c == [] then []
    else
      var first := XorBlock(InvCipherOf(c[..16], k), iv);
      first + CbcDecryptInPlace(k, first, c[16..])
  }

  // ---------- Properties ----------

  /** Decryption undoes encryption for any number of blocks. */
  lemma {:induction false} CbcRoundTrip(k: Schedule, iv: Block, p: seq<bv8>)
    requires Whole(p)
    ensures CbcDecrypt(k, iv, CbcEncrypt(k, iv, p)) == p
    decreases |p|
  {
    hide CipherOf;
    hide InvCipherOf;
    hide XorBlock;
    if p != [] {
      var fed := XorBlock(p[..16], iv);
      var first := CipherOf(fed, k);
      var c := CbcEncrypt(k, iv, p);
      assert c[..16] == first && c[16..] == CbcEncrypt(k, first, p[16..]);
      InvCipherUndoesCipher(fed, k);
      XorBlockUndone(p[..16], iv);
      CbcRoundTrip(k, first, p[16..]);
      assert p == p[..16] + p[16..];
    }
  }

  lemma LastOfCons(iv: Block, first: Block, rest: seq<bv8>)
    requires Whole(rest)
    ensures Whole(first + rest) && LastBlock(iv, first + rest) == LastBlock(first, rest)
  {
    var c := first + rest;
    WholeCons(|rest|);
    if rest == [] {
      assert c == first;
    } else {
      assert c[|c| - 16..] == rest[|rest| - 16..];
    }
  }

  lemma WholeCons(n: nat)
    requires n % 16 == 0
    ensures (16 + n) % 16 == 0
  {}

  lemma SplitOfAppend(p: seq<bv8>, q: seq<bv8>)
    requires Whole(p) && Whole(q) && p != []
    ensures Whole(p + q) && Whole(p[16..]) && (p + q)[..16] == p[..16] && (p + q)[16..] == p[16..] + q
  {}

  /** One step of the definitions. */
  lemma EncryptCons(k: Schedule, iv: Block, p: seq<bv8>)
    requires Whole(p) && p != []
    ensures Whole(p[16..])
    ensures var first := CipherOf(XorBlock(p[..16], iv), k);
            && CbcEncrypt(k, iv, p) == first + CbcEncrypt(k, first, p[16..])
            && Fed(k, iv, p) == XorBlock(p[..16], iv) + Fed(k, first, p[16..])
  {
    hide CipherOf, XorBlock;
  }

  /** Encrypting in two calls, the second carrying on with the chaining block, is encrypting once. */
  lemma {:induction false} CbcEncryptAppend(k: Schedule, iv: Block, p: seq<bv8>, q: seq<bv8>)
    requires Whole(p) && Whole(q)
    ensures Whole(p + q)
    ensures CbcEncrypt(k, iv, p + q)
         == CbcEncrypt(k, iv, p) + CbcEncrypt(k, LastBlock(iv, CbcEncrypt(k, iv, p)), q)
    decreases |p|
  {
    hide CipherOf, XorBlock;
    if p == [] {
      assert p + q == q;
    } else {
      hide CbcEncrypt, LastBlock;
      SplitOfAppend(p, q);
      EncryptCons(k, iv, p);
      EncryptCons(k, iv, p + q);
      var first := CipherOf(XorBlock(p[..16], iv), k);
      CbcEncryptAppend(k, first, p[16..], q);
      LastOfCons(iv, first, CbcEncrypt(k, first, p[16..]));
    }
  }

  /** The defining equation of the standard: block j is the cipher of plaintext block j added to
      ciphertext block j - 1, and the initial vector stands in for block -1. */
  ghost predicate BlockEquation(k: Schedule, iv: Block, p: seq<bv8>, c: seq<bv8>, j: nat)
    requires |c| == |p| && 16 * j + 16 <= |p|
  {
    hide CipherOf;
    hide XorBlock;
    var chained := if j == 0 then iv else c[16 * j - 16..16 * j];
    c[16 * j..16 * j + 16] == CipherOf(XorBlock(p[16 * j..16 * j + 16], chained), k)
  }

  lemma CbcBlock(k: Schedule, iv: Block, p: seq<bv8>, j: nat)
    requires Whole(p) && 16 * j + 16 <= |p|
    ensures BlockEquation(k, iv, p, CbcEncrypt(k, iv, p), j)
  {
    hide CipherOf;
    hide XorBlock;
    var before, after := p[..16 * j], p[16 * j..];
    assert p == before + after;
    CbcEncryptAppend(k, iv, before, after);
    var c := CbcEncrypt(k, iv, before);
    var chained := LastBlock(iv, c);
    EncryptCons(k, chained, after);
    hide CbcEncrypt;
    var first := CipherOf(XorBlock(after[..16], chained), k);
    BlockBetween(c, first, CbcEncrypt(k, first, after[16..]), 16 * j);
    assert after[..16] == p[16 * j..16 * j + 16];
  }

  /** The sixteen bytes behind the first `at`, and those before them. */
  lemma BlockBetween(c: seq<bv8>, first: Block, rest: seq<bv8>, at: nat)
    requires |c| == at
    ensures (c + (first + rest))[at..at + 16] == first
    ensures at >= 16 ==> (c + (first + rest))[at - 16..at] == c[at - 16..]
  {}

  /** One step of the definitions. */
  lemma DecryptCons(k: Schedule, iv: Block, c: seq<bv8>)
    requires Whole(c) && c != []
    ensures Whole(c[16..])
    ensures var first := XorBlock(InvCipherOf(c[..16], k), iv);
            && CbcDecrypt(k, iv, c) == first + CbcDecrypt(k, c[..16], c[16..])
            && CbcDecryptInPlace(k, iv, c) == first + CbcDecryptInPlace(k, first, c[16..])
  {
    hide InvCipherOf, XorBlock;
  }

  lemma {:induction false} CbcDecryptAppend(k: Schedule, iv: Block, c: seq<bv8>, d: seq<bv8>)
    requires Whole(c) && Whole(d)
    ensures Whole(c + d)
    ensures CbcDecrypt(k, iv, c + d) == CbcDecrypt(k, iv, c) + CbcDecrypt(k, LastBlock(iv, c), d)
    decreases |c|
  {
    hide InvCipherOf, XorBlock;
    if c == [] {
      assert c + d == d;
    } else {
      hide CbcDecrypt, CbcDecryptInPlace, LastBlock;
      SplitOfAppend(c, d);
      DecryptCons(k, iv, c);
      DecryptCons(k, iv, c + d);
      CbcDecryptAppend(k, c[..16], c[16..], d);
      assert c == c[..16] + c[16..];
      LastOfCons(iv, c[..16], c[16..]);
    }
  }

  lemma {:induction false} FedAppend(k: Schedule, iv: Block, p: seq<bv8>, q: seq<bv8>)
    requires Whole(p) && Whole(q)
    ensures Whole(p + q)
    ensures Fed(k, iv, p + q) == Fed(k, iv, p) + Fed(k, LastBlock(iv, CbcEncrypt(k, iv, p)), q)
    decreases |p|
  {
    hide CipherOf, XorBlock;
    if p == [] {
      assert p + q == q;
    } else {
      hide CbcEncrypt, Fed, LastBlock;
      SplitOfAppend(p, q);
      EncryptCons(k, iv, p);
      EncryptCons(k, iv, p + q);
      var first := CipherOf(XorBlock(p[..16], iv), k);
      FedAppend(k, first, p[16..], q);
      LastOfCons(iv, first, CbcEncrypt(k, first, p[16..]));
    }
  }

  lemma {:induction false} InPlaceAppend(k: Schedule, iv: Block, c: seq<bv8>, d: seq<bv8>)
    requires Whole(c) && Whole(d)
    ensures Whole(c + d)
    ensures CbcDecryptInPlace(k, iv, c + d)
         == CbcDecryptInPlace(k, iv, c) + CbcDecryptInPlace(k, LastBlock(iv, CbcDecryptInPlace(k, iv, c)), d)
    decreases |c|
  {
    hide InvCipherOf, XorBlock;
    if c == [] {
      assert c + d == d;
    } else {
      hide CbcDecrypt, CbcDecryptInPlace, LastBlock;
      SplitOfAppend(c, d);
      DecryptCons(k, iv, c);
      DecryptCons(k, iv, c + d);
      var first := XorBlock(InvCipherOf(c[..16], k), iv);
      InPlaceAppend(k, first, c[16..], d);
      LastOfCons(iv, first, CbcDecryptInPlace(k, first, c[16..]));
    }
  }

  lemma XorBlockInjective(a: Block, b: Block, c: Block)
    requires XorBlock(a, b) == XorBlock(a, c)
    ensures b == c
  {
    hide XorBlock;
    XorBlockUndone(a, b);
    XorBlockUndone(a, c);
    XorBlockUndone(b, a);
    XorBlockUndone(c, a);
  }

  const ZERO_BLOCK: Block := seq(16, _ => 0)

  /** Decrypting inside one buffer is right for every input exactly when there is at most one block. */
  lemma InPlaceDecryptionIsRightIff(k: Schedule, length: nat)
    requires length % 16 == 0
    ensures (forall iv: Block, c: seq<bv8> | |c| == length :: CbcDecryptInPlace(k, iv, c) == CbcDecrypt(k, iv, c))
       <==> length <= 16
  {
    hide InvCipherOf;
    hide XorBlock;
    if length > 16 {
      var c := ZERO_BLOCK + ZERO_BLOCK + seq(length - 32, _ => 0);
      var iv := XorBlock(ZERO_BLOCK[0 := 1], InvCipherOf(ZERO_BLOCK, k));
      InPlaceDecryptionFails(k, iv, c);
      assert |c| == length;
    } else {
      forall iv: Block, c: seq<bv8> | |c| == length
        ensures CbcDecryptInPlace(k, iv, c) == CbcDecrypt(k, iv, c)
      {
        if length == 16 {
          assert c[16..] == [];
        }
      }
    }
  }

  /** One input that fails: the first plaintext block differs from the first ciphertext block. */
  lemma InPlaceDecryptionFails(k: Schedule, iv: Block, c: seq<bv8>)
    requires Whole(c) && |c| >= 32 && c[..16] == ZERO_BLOCK
    requires iv == XorBlock(ZERO_BLOCK[0 := 1], InvCipherOf(ZERO_BLOCK, k))
    ensures CbcDecryptInPlace(k, iv, c) != CbcDecrypt(k, iv, c)
  {
    hide InvCipherOf;
    hide XorBlock;
    XorBlockUndone(ZERO_BLOCK[0 := 1], InvCipherOf(ZERO_BLOCK, k));
    XorBlockUndone(InvCipherOf(ZERO_BLOCK, k), iv);
    var first := ZERO_BLOCK[0 := 1];
    var c1 := c[16..];
    var wrong := CbcDecryptInPlace(k, iv, c);
    var right := CbcDecrypt(k, iv, c);
    assert wrong[16..] == CbcDecryptInPlace(k, first, c1);
    assert right[16..] == CbcDecrypt(k, ZERO_BLOCK, c1);
    assert wrong[16..][..16] == XorBlock(InvCipherOf(c1[..16], k), first);
    assert right[16..][..16] == XorBlock(InvCipherOf(c1[..16], k), ZERO_BLOCK);
    assert first[0] != ZERO_BLOCK[0];
    if wrong == right {
      XorBlockInjective(InvCipherOf(c1[..16], k), first, ZERO_BLOCK);
      assert false;
    }
  }

  // ---------- The calls ----------

  method Copy16(output: array<bv8>, outAt: nat, input: array<bv8>, inAt: nat)
    requires outAt + 16 <= output.Length && inAt + 16 <= input.Length
    modifies output
    ensures output[outAt..outAt + 16] == old(input[inAt..inAt + 16])
    ensures output[..outAt] == old(output[..outAt]) && output[outAt + 16..] == old(output[outAt + 16..])
  {
    forall i | outAt <= i < outAt + 16 {
      output[i] := input[inAt + (i - outAt)];
    }
  }

  method EcbEncrypt(ctx: Context, input: array<bv8>, key: array<bv8>, output: array<bv8>)
    requires ctx.Valid() && input.Length == key.Length == output.Length == 16
    requires key != ctx.roundKey && output != ctx.roundKey && key != output
    modifies ctx.roundKey, output
    ensures ctx.Valid() && ctx.Keys() == KeyScheduleOf(key[..])
    ensures output[..] == CipherOf(old(input[..]), KeyScheduleOf(key[..]))
  {
    hide CipherOf;
    hide KeyScheduleOf;
    Copy16(output, 0, input, 0);
    ctx.KeyExpansion(key);
    assert Context.State(output, 0) == old(input[..]);
    ctx.Cipher(output, 0);
    assert output[..] == Context.State(output, 0);
  }

  method EcbDecrypt(ctx: Context, input: array<bv8>, key: array<bv8>, output: array<bv8>)
    requires ctx.Valid() && input.Length == key.Length == output.Length == 16
    requires key != ctx.roundKey && output != ctx.roundKey && key != output
    modifies ctx.roundKey, output
    ensures ctx.Valid() && ctx.Keys() == KeyScheduleOf(key[..])
    ensures output[..] == InvCipherOf(old(input[..]), KeyScheduleOf(key[..]))
  {
    hide InvCipherOf;
    hide KeyScheduleOf;
    Copy16(output, 0, input, 0);
    ctx.KeyExpansion(key);
    assert Context.State(output, 0) == old(input[..]);
    ctx.InvCipher(output, 0);
    assert output[..] == Context.State(output, 0);
  }

  /** The block the chaining pointer points at right now. */
  ghost function Chained(ctx: Context): Block
    requires ctx.Valid() && ctx.iv != null
    reads ctx, ctx.iv
  {
    ctx.iv[ctx.ivAt..ctx.ivAt + 16]
  }

  /** The two 16-byte windows do not overlap. */
  ghost predicate Apart(a: array<bv8>, at: nat, b: array<bv8>, bt: nat) {
    a != b || at + 16 <= bt || bt + 16 <= at
  }

  /** The chaining pointer points at the window itself or at a place further on in the same array. */
  ghost predicate Ahead(ctx: Context, buf: array<bv8>, at: nat)
    reads ctx
  {
    ctx.iv == buf && ctx.ivAt >= at
  }

  /** XORs a window with the block the chaining pointer points at. That block may start in the window: each of its bytes
      is read before it is overwritten. */
  method XorWithIv(ctx: Context, buf: array<bv8>, at: nat)
    requires ctx.Valid() && ctx.iv != null && at + 16 <= buf.Length && buf != ctx.roundKey
    requires Apart(ctx.iv, ctx.ivAt, buf, at) || Ahead(ctx, buf, at)
    modifies buf
    ensures buf[at..at + 16] == XorBlock(old(buf[at..at + 16]), old(Chained(ctx)))
    ensures buf[..at] == old(buf[..at]) && buf[at + 16..] == old(buf[at + 16..])
  {
    hide AesField.Xor;
    ghost var s, v := buf[at..at + 16], Chained(ctx);
    for i := 0 to 16
      invariant forall k | 0 <= k < 16 :: buf[at..at + 16][k] == if k < i then AesField.Xor(s[k], v[k]) else s[k]
      invariant buf[..at] == old(buf[..at]) && buf[at + 16..] == old(buf[at + 16..])
      invariant forall k | i <= k < 16 :: ctx.iv[ctx.ivAt + k] == v[k]
    {
      assert buf[at + i] == buf[at..at + 16][i];
      ghost var before := buf[..];
      buf[at + i] := AesField.Xor(buf[at + i], ctx.iv[ctx.ivAt + i]);
      assert buf[at..at + 16] == before[at..at + 16][i := AesField.Xor(s[i], v[i])];
    }
  }

  /** One turn of the encryption loop. */
  method EncryptBlock(ctx: Context, output: array<bv8>, o: nat, input: array<bv8>, n: nat)
    requires ctx.Valid() && ctx.iv != null
    requires o + 16 <= output.Length && n + 16 <= input.Length
    requires output != ctx.roundKey && input != ctx.roundKey
    requires input == output ==> n == o
    requires Apart(ctx.iv, ctx.ivAt, input, n) || Ahead(ctx, input, n)
    modifies ctx`iv, ctx`ivAt, output, input
    ensures ctx.Valid() && ctx.iv == output && ctx.ivAt == o && ctx.Keys() == old(ctx.Keys())
    ensures var fed := XorBlock(old(input[n..n + 16]), old(Chained(ctx)));
            && output[o..o + 16] == CipherOf(fed, ctx.Keys())
            && (input != output ==> input[n..n + 16] == fed)
    ensures output[..o] == old(output[..o]) && output[o + 16..] == old(output[o + 16..])
    ensures input[..n] == old(input[..n]) && input[n + 16..] == old(input[n + 16..])
  {
    hide XorBlock;
    hide CipherOf;
    XorWithIv(ctx, input, n);
    Copy16(output, o, input, n);
    assert Context.State(output, o) == XorBlock(old(input[n..n + 16]), old(Chained(ctx)));
    ctx.Cipher(output, o);
    ctx.iv, ctx.ivAt := output, o;
  }

  /** Takes over a key and an initial vector; null keeps what the last call left. */
  method SetKeyAndIv(ctx: Context, key: array?<bv8>, iv: array?<bv8>, ivAt: nat)
    requires ctx.Valid() && (iv == null ==> ctx.iv != null)
    requires key != null ==> key.Length == 16 && key != ctx.roundKey
    requires iv != null ==> ivAt + 16 <= iv.Length && iv != ctx.roundKey
    modifies ctx.roundKey, ctx`iv, ctx`ivAt
    ensures ctx.Valid() && ctx.iv != null
    ensures ctx.Keys() == if key != null then KeyScheduleOf(key[..]) else old(ctx.Keys())
    ensures if iv != null then ctx.iv == iv && ctx.ivAt == ivAt else ctx.iv == old(ctx.iv) && ctx.ivAt == old(ctx.ivAt)
  {
    hide KeyScheduleOf;
    if key != null {
      ctx.KeyExpansion(key);
    }
    if iv != null {
      ctx.iv, ctx.ivAt := iv, ivAt;
    }
  }

  // Where chaining starts: at the initial vector passed in, or where the last call ended.

  ghost function StartArray(ctx: Context, iv: array?<bv8>): array<bv8>
    requires iv == null ==> ctx.iv != null
    reads ctx
  {
    if iv != null then iv else ctx.iv
  }

  ghost function StartAt(ctx: Context, iv: array?<bv8>, ivAt: nat): nat
    reads ctx
  {
    if iv != null then ivAt else ctx.ivAt
  }

  ghost function StartBlock(ctx: Context, iv: array?<bv8>, ivAt: nat): Block
    requires ctx.Valid() && (iv == null ==> ctx.iv != null)
    requires iv != null ==> ivAt + 16 <= iv.Length
    reads ctx, ctx.iv, iv
  {
    if iv != null then iv[ivAt..ivAt + 16] else Chained(ctx)
  }

  lemma OneMoreBlock(k: Schedule, start: Block, p: seq<bv8>, i: nat)
    requires Whole(p) && i % 16 == 0 && i + 16 <= |p|
    ensures Whole(p[..i]) && Whole(p[..i + 16])
    ensures var fed := XorBlock(p[i..i + 16], LastBlock(start, CbcEncrypt(k, start, p[..i])));
            && CbcEncrypt(k, start, p[..i + 16]) == CbcEncrypt(k, start, p[..i]) + CipherOf(fed, k)
            && Fed(k, start, p[..i + 16]) == Fed(k, start, p[..i]) + fed
  {
    hide CipherOf;
    hide XorBlock;
    var before, block := p[..i], p[i..i + 16];
    assert p[..i + 16] == before + block;
    CbcEncryptAppend(k, start, before, block);
    FedAppend(k, start, before, block);
    OneBlock(k, LastBlock(start, CbcEncrypt(k, start, before)), block);
  }

  lemma OneBlock(k: Schedule, iv: Block, b: Block)
    ensures CbcEncrypt(k, iv, b) == CipherOf(XorBlock(b, iv), k)
    ensures Fed(k, iv, b) == XorBlock(b, iv)
    ensures CbcDecrypt(k, iv, b) == CbcDecryptInPlace(k, iv, b) == XorBlock(InvCipherOf(b, k), iv)
  {
    hide CipherOf;
    hide InvCipherOf;
    hide XorBlock;
    assert b[..16] == b && b[16..] == [];
  }

  // Buffers are whole arrays of the length passed to the call.

  /** The part of a buffer that still holds the input, 16 bytes shorter. */
  lemma ReadFurther(p: seq<bv8>, before: seq<bv8>, after: seq<bv8>, i: nat)
    requires |p| == |before| == |after| && i + 16 <= |p|
    requires before[i..] == p[i..] && after[i + 16..] == before[i + 16..]
    ensures before[i..i + 16] == p[i..i + 16] && after[i + 16..] == p[i + 16..]
  {
    assert before[i..i + 16] == before[i..][..16] && p[i..i + 16] == p[i..][..16];
    assert before[i + 16..] == before[i..][16..] && p[i + 16..] == p[i..][16..];
  }

  /** The first i bytes are encrypted, and what was fed to the cipher is left in the input, if it is another buffer. */
  ghost predicate Encrypting(k: Schedule, start: Block, p: seq<bv8>, out: seq<bv8>, inp: seq<bv8>, same: bool, i: nat) {
    && |out| == |inp| == |p| && i <= |p| && i % 16 == 0
    && out[..i] == CbcEncrypt(k, start, p[..i])
    && (!same ==> inp[..i] == Fed(k, start, p[..i]))
    && inp[i..] == p[i..]
  }

  /** The next block of the encryption and of what is fed to the cipher. */
  ghost predicate EncryptsNext(k: Schedule, start: Block, p: seq<bv8>, i: nat, block: seq<bv8>, fed: seq<bv8>,
                               same: bool)
  {
    && i + 16 <= |p| && Whole(p[..i]) && Whole(p[..i + 16])
    && CbcEncrypt(k, start, p[..i + 16]) == CbcEncrypt(k, start, p[..i]) + block
    && (!same ==> Fed(k, start, p[..i + 16]) == Fed(k, start, p[..i]) + fed)
  }

  lemma EncryptingStep(k: Schedule, start: Block, p: seq<bv8>, out: seq<bv8>, inp: seq<bv8>, out': seq<bv8>,
                       inp': seq<bv8>, same: bool, i: nat)
    requires Encrypting(k, start, p, out, inp, same, i) && i + 16 <= |p| == |out'| == |inp'| && Whole(p)
    requires out'[..i] == out[..i] && inp'[..i] == inp[..i] && inp'[i + 16..] == inp[i + 16..]
    requires EncryptsNext(k, start, p, i, out'[i..i + 16], inp'[i..i + 16], same)
    ensures Encrypting(k, start, p, out', inp', same, i + 16)
  {
    hide CbcEncrypt, Fed;
    ReadFurther(p, inp, inp', i);
    assert out'[..i + 16] == out'[..i] + out'[i..i + 16];
    assert inp'[..i + 16] == inp'[..i] + inp'[i..i + 16];
  }

  lemma EncryptingEnds(k: Schedule, start: Block, p: seq<bv8>, out: seq<bv8>, inp: seq<bv8>, same: bool)
    requires Encrypting(k, start, p, out, inp, same, |p|)
    ensures out == CbcEncrypt(k, start, p) && (!same ==> inp == Fed(k, start, p))
  {
    hide CbcEncrypt, Fed;
    assert p[..|p|] == p && out[..|p|] == out && inp[..|p|] == inp;
  }

  lemma EncryptingReads(k: Schedule, start: Block, p: seq<bv8>, out: seq<bv8>, inp: seq<bv8>, same: bool, i: nat)
    requires Encrypting(k, start, p, out, inp, same, i) && i + 16 <= |p|
    ensures |out| == |inp| == |p| && i % 16 == 0 && inp[i..i + 16] == p[i..i + 16]
    ensures out[..i] == CbcEncrypt(k, start, p[..i])
  {
    hide CbcEncrypt, Fed;
    ReadFurther(p, inp, inp, i);
  }

  lemma LastOfPrefix(start: Block, s: seq<bv8>, i: nat)
    requires i % 16 == 0 && i + 16 <= |s|
    ensures LastBlock(start, s[..i + 16]) == s[i..i + 16]
  {}

  /** The loop of an encryption that started with the initial vector at a[at..]. */
  ghost predicate EncryptLoop(ctx: Context, k: Schedule, start: Block, p: seq<bv8>, output: array<bv8>,
                              input: array<bv8>, a: array<bv8>, at: nat, i: nat)
    reads ctx, ctx.roundKey, ctx.iv, output, input
  {
    && ctx.Valid() && ctx.iv != null && ctx.Keys() == k
    && output != ctx.roundKey && input != ctx.roundKey && output.Length == input.Length == |p| && i <= |p|
    && Encrypting(k, start, p, output[..], input[..], input == output, i)
    && (if i > 0 then ctx.iv == output && ctx.ivAt == i - 16 else ctx.iv == a && ctx.ivAt == at)
    && i % 16 == 0 && Chained(ctx) == LastBlock(start, output[..][..i])
  }

  method EncryptNext(ctx: Context, ghost k: Schedule, ghost start: Block, ghost p: seq<bv8>, output: array<bv8>,
                     input: array<bv8>, ghost a: array<bv8>, ghost at: nat, i: nat)
    requires EncryptLoop(ctx, k, start, p, output, input, a, at, i) && i + 16 <= |p| && Whole(p)
    modifies ctx`iv, ctx`ivAt, output, input
    ensures EncryptLoop(ctx, k, start, p, output, input, a, at, i + 16)
  {
    hide KeyScheduleOf, CipherOf, XorBlock, CbcEncrypt, Fed, Encrypting;
    ghost var out, inp := output[..], input[..];
    EncryptingReads(k, start, p, out, inp, input == output, i);
    OneMoreBlock(k, start, p, i);
    EncryptBlock(ctx, output, i, input, i);
    EncryptingStep(k, start, p, out, inp, output[..], input[..], input == output, i);
    LastOfPrefix(start, output[..], i);
  }

  lemma EncryptLoopStarts(ctx: Context, k: Schedule, start: Block, p: seq<bv8>, output: array<bv8>, input: array<bv8>)
    requires ctx.Valid() && ctx.iv != null && ctx.Keys() == k && Chained(ctx) == start && input[..] == p
    requires output != ctx.roundKey && input != ctx.roundKey && output.Length == input.Length
    ensures EncryptLoop(ctx, k, start, p, output, input, ctx.iv, ctx.ivAt, 0)
  {
    hide Encrypting;
    EncryptingStart(k, start, p, output[..], input == output);
  }

  lemma EncryptLoopEnds(ctx: Context, k: Schedule, start: Block, p: seq<bv8>, output: array<bv8>, input: array<bv8>,
                        a: array<bv8>, at: nat)
    requires EncryptLoop(ctx, k, start, p, output, input, a, at, |p|) && Whole(p)
    ensures ctx.Valid() && ctx.iv != null && ctx.Keys() == k && output.Length == input.Length == |p|
    ensures output[..] == CbcEncrypt(k, start, p) && (input != output ==> input[..] == Fed(k, start, p))
    ensures Chained(ctx) == LastBlock(start, output[..])
    ensures if |p| > 0 then ctx.iv == output && ctx.ivAt == |p| - 16 else ctx.iv == a && ctx.ivAt == at
  {
    hide Encrypting, CbcEncrypt, Fed;
    EncryptingEnds(k, start, p, output[..], input[..], input == output);
    assert output[..][..|p|] == output[..];
  }

  /** Encrypts a buffer. The initial vector, given or carried over, may lie in the buffers: what counts is what it holds
      when the call is made. */
  method CbcEncryptBuffer(ctx: Context, output: array<bv8>, input: array<bv8>,
                          key: array?<bv8>, iv: array?<bv8>, ivAt: nat)
    requires ctx.Valid() && (iv == null ==> ctx.iv != null)
    requires key != null ==> key.Length == 16 && key != ctx.roundKey
    requires iv != null ==> ivAt + 16 <= iv.Length && iv != ctx.roundKey
    requires input.Length % 16 == 0 && output.Length == input.Length
    requires output != ctx.roundKey && input != ctx.roundKey
    modifies ctx.roundKey, ctx`iv, ctx`ivAt, output, input
    ensures ctx.Valid() && ctx.iv != null
    ensures ctx.Keys() == if key != null then KeyScheduleOf(old(key[..])) else old(ctx.Keys())
    ensures output[..] == CbcEncrypt(ctx.Keys(), old(StartBlock(ctx, iv, ivAt)), old(input[..]))
    ensures input != output ==> input[..] == Fed(ctx.Keys(), old(StartBlock(ctx, iv, ivAt)), old(input[..]))
    ensures Chained(ctx) == LastBlock(old(StartBlock(ctx, iv, ivAt)), output[..])
    ensures if input.Length > 0 then ctx.iv == output && ctx.ivAt == output.Length - 16
            else ctx.iv == old(StartArray(ctx, iv)) && ctx.ivAt == old(StartAt(ctx, iv, ivAt))
  {
    hide KeyScheduleOf, CipherOf, XorBlock, CbcEncrypt, Fed, EncryptLoop, LastBlock;
    ghost var p, start, a, at := input[..], StartBlock(ctx, iv, ivAt), StartArray(ctx, iv), StartAt(ctx, iv, ivAt);
    SetKeyAndIv(ctx, key, iv, ivAt);
    ghost var k := ctx.Keys();
    EncryptLoopStarts(ctx, k, start, p, output, input);
    var i := 0;
    while i < input.Length
      invariant 0 <= i <= input.Length && i % 16 == 0
      invariant EncryptLoop(ctx, k, start, p, output, input, a, at, i)
    {
      EncryptNext(ctx, k, start, p, output, input, a, at, i);
      i := i + 16;
    }
    EncryptLoopEnds(ctx, k, start, p, output, input, a, at);
  }

  lemma EncryptingStart(k: Schedule, start: Block, p: seq<bv8>, out: seq<bv8>, same: bool)
    requires |out| == |p|
    ensures Encrypting(k, start, p, out, p, same, 0) && LastBlock(start, out[..0]) == start
  {
    EmptyPrefix(k, start, p);
  }

  /** A further call with null key and null initial vector, on whatever buffers, carries the encryption on: with all
      that was encrypted before, it is the encryption of the concatenation. */
  method CbcEncryptMore(ctx: Context, output: array<bv8>, input: array<bv8>, ghost start: Block, ghost before: seq<bv8>)
    requires ctx.Valid() && ctx.iv != null && input.Length % 16 == 0 && output.Length == input.Length
    requires output != ctx.roundKey && input != ctx.roundKey
    requires Whole(before) && Chained(ctx) == LastBlock(start, CbcEncrypt(ctx.Keys(), start, before))
    modifies ctx`iv, ctx`ivAt, ctx.roundKey, output, input
    ensures ctx.Valid() && ctx.iv != null && ctx.Keys() == old(ctx.Keys()) && Whole(before + old(input[..]))
    ensures CbcEncrypt(ctx.Keys(), start, before + old(input[..])) == CbcEncrypt(ctx.Keys(), start, before) + output[..]
    ensures Chained(ctx) == LastBlock(start, CbcEncrypt(ctx.Keys(), start, before + old(input[..])))
  {
    hide CbcEncrypt, Fed, LastBlock;
    ghost var p := input[..];
    CbcEncryptBuffer(ctx, output, input, null, null, 0);
    CbcEncryptAppend(ctx.Keys(), start, before, p);
    LastOfBoth(start, CbcEncrypt(ctx.Keys(), start, before), output[..]);
  }

  lemma LastOfBoth(start: Block, a: seq<bv8>, b: seq<bv8>)
    requires Whole(a) && Whole(b)
    ensures Whole(a + b) && LastBlock(start, a + b) == LastBlock(LastBlock(start, a), b)
  {
    if b == [] {
      assert a + b == a;
    } else {
      assert (a + b)[|a + b| - 16..] == b[|b| - 16..];
    }
  }

  lemma EmptyPrefix(k: Schedule, start: Block, p: seq<bv8>)
    ensures Whole(p[..0]) && CbcEncrypt(k, start, p[..0]) == Fed(k, start, p[..0]) == []
    ensures CbcDecrypt(k, start, p[..0]) == CbcDecryptInPlace(k, start, p[..0]) == []
  {}

  /** A block whose bytes from `at` on have moved to the front, the rest filled up from another block. */
  function Mixed(x: Block, start: Block, at: nat): Block {
    if at < 16 then x[at..] + start[16 - at..] else start
  }

  /** What a window of an array holds after the 16 bytes at o, which are not behind its start, have become x. */
  lemma WindowMixed(now: seq<bv8>, before: seq<bv8>, at: nat, o: nat, x: Block)
    requires |now| == |before| && o <= at && at + 16 <= |now|
    requires now[o..o + 16] == x && now[o + 16..] == before[o + 16..]
    ensures now[at..at + 16] == Mixed(x, before[at..at + 16], at - o)
  {
    var left, right := now[at..at + 16], Mixed(x, before[at..at + 16], at - o);
    forall k | 0 <= k < 16
      ensures left[k] == right[k]
    {
      if at + k < o + 16 {
        assert now[at + k] == now[o..o + 16][at - o + k];
      } else {
        assert now[at + k] == now[o + 16..][at + k - o - 16];
        assert before[at + k] == before[o + 16..][at + k - o - 16];
      }
    }
  }

  /** One turn of the decryption loop. If the block the chaining pointer points at starts in the output window, what
      of it lies in the window is replaced before it is used. */
  method DecryptBlock(ctx: Context, output: array<bv8>, o: nat, input: array<bv8>, n: nat)
    requires ctx.Valid() && ctx.iv != null
    requires o + 16 <= output.Length && n + 16 <= input.Length
    requires output != ctx.roundKey && input != ctx.roundKey
    requires input == output ==> n == o
    requires Apart(ctx.iv, ctx.ivAt, output, o) || Ahead(ctx, output, o)
    modifies ctx`iv, ctx`ivAt, output
    ensures ctx.Valid() && ctx.iv == input && ctx.ivAt == n && ctx.Keys() == old(ctx.Keys())
    ensures var x := InvCipherOf(old(input[n..n + 16]), ctx.Keys());
            output[o..o + 16] == XorBlock(x, if old(Ahead(ctx, output, o))
                                             then Mixed(x, old(Chained(ctx)), old(ctx.ivAt) - o) else old(Chained(ctx)))
    ensures output[..o] == old(output[..o]) && output[o + 16..] == old(output[o + 16..])
  {
    hide XorBlock;
    hide InvCipherOf;
    hide Mixed;
    ghost var chained, was := Chained(ctx), output[..];
    ghost var ahead := Ahead(ctx, output, o);
    Copy16(output, o, input, n);
    assert Context.State(output, o) == old(input[n..n + 16]);
    ctx.InvCipher(output, o);
    ghost var x := InvCipherOf(old(input[n..n + 16]), ctx.Keys());
    assert Chained(ctx) == if ahead then Mixed(x, chained, ctx.ivAt - o) else chained by {
      if ahead {
        WindowMixed(output[..], was, ctx.ivAt, o, x);
      } else {
        WindowKept(ctx.iv[..], old(ctx.iv[..]), ctx.ivAt, o);
      }
    }
    XorWithIv(ctx, output, o);
    ctx.iv, ctx.ivAt := input, n;
  }

  lemma WindowKept(now: seq<bv8>, before: seq<bv8>, at: nat, o: nat)
    requires |now| == |before| && at + 16 <= |now|
    requires now == before
             || (o + 16 <= |now| && now[..o] == before[..o] && now[o + 16..] == before[o + 16..]
                 && (at + 16 <= o || o + 16 <= at))
    ensures now[at..at + 16] == before[at..at + 16]
  {
    if now != before {
      if at + 16 <= o {
        assert now[at..at + 16] == now[..o][at..at + 16];
        assert before[at..at + 16] == before[..o][at..at + 16];
      } else {
        assert now[at..at + 16] == now[o + 16..][at - o - 16..at - o];
        assert before[at..at + 16] == before[o + 16..][at - o - 16..at - o];
      }
    }
  }

  lemma OneMoreDecrypted(k: Schedule, start: Block, c: seq<bv8>, i: nat)
    requires Whole(c) && i % 16 == 0 && i + 16 <= |c|
    ensures Whole(c[..i]) && Whole(c[..i + 16])
    ensures CbcDecrypt(k, start, c[..i + 16])
         == CbcDecrypt(k, start, c[..i]) + XorBlock(InvCipherOf(c[i..i + 16], k), LastBlock(start, c[..i]))
    ensures CbcDecryptInPlace(k, start, c[..i + 16])
         == CbcDecryptInPlace(k, start, c[..i])
          + XorBlock(InvCipherOf(c[i..i + 16], k), LastBlock(start, CbcDecryptInPlace(k, start, c[..i])))
  {
    hide InvCipherOf;
    hide XorBlock;
    var before, block := c[..i], c[i..i + 16];
    assert c[..i + 16] == before + block;
    CbcDecryptAppend(k, start, before, block);
    InPlaceAppend(k, start, before, block);
    OneBlock(k, LastBlock(start, before), block);
    OneBlock(k, LastBlock(start, CbcDecryptInPlace(k, start, before)), block);
  }

  /** The first i bytes are decrypted, one way or the other. */
  ghost predicate Decrypting(k: Schedule, start: Block, c: seq<bv8>, out: seq<bv8>, inp: seq<bv8>, same: bool, i: nat) {
    && |out| == |inp| == |c| && i <= |c| && i % 16 == 0
    && out[..i] == (if same then CbcDecryptInPlace(k, start, c[..i]) else CbcDecrypt(k, start, c[..i]))
    && (if same then inp == out else inp == c)
    && inp[i..] == c[i..]
  }

  ghost predicate DecryptsNext(k: Schedule, start: Block, c: seq<bv8>, i: nat, block: seq<bv8>, same: bool) {
    && i + 16 <= |c| && Whole(c[..i]) && Whole(c[..i + 16])
    && if same then CbcDecryptInPlace(k, start, c[..i + 16]) == CbcDecryptInPlace(k, start, c[..i]) + block
       else CbcDecrypt(k, start, c[..i + 16]) == CbcDecrypt(k, start, c[..i]) + block
  }

  lemma DecryptingStep(k: Schedule, start: Block, c: seq<bv8>, out: seq<bv8>, inp: seq<bv8>, out': seq<bv8>,
                       inp': seq<bv8>, same: bool, i: nat)
    requires Decrypting(k, start, c, out, inp, same, i) && i + 16 <= |c| == |out'| && Whole(c)
    requires inp' == (if same then out' else inp) && out'[..i] == out[..i] && out'[i + 16..] == out[i + 16..]
    requires DecryptsNext(k, start, c, i, out'[i..i + 16], same)
    ensures Decrypting(k, start, c, out', inp', same, i + 16)
  {
    hide CbcDecrypt, CbcDecryptInPlace;
    ReadFurther(c, inp, inp', i);
    assert out'[..i + 16] == out'[..i] + out'[i..i + 16];
  }

  lemma DecryptingEnds(k: Schedule, start: Block, c: seq<bv8>, out: seq<bv8>, inp: seq<bv8>, same: bool)
    requires Decrypting(k, start, c, out, inp, same, |c|)
    ensures out == if same then CbcDecryptInPlace(k, start, c) else CbcDecrypt(k, start, c)
  {
    hide CbcDecrypt, CbcDecryptInPlace;
    assert c[..|c|] == c && out[..|c|] == out;
  }

  lemma DecryptingReads(k: Schedule, start: Block, c: seq<bv8>, out: seq<bv8>, inp: seq<bv8>, same: bool, i: nat)
    requires Decrypting(k, start, c, out, inp, same, i) && i + 16 <= |c|
    ensures |out| == |inp| == |c| && i % 16 == 0 && inp[i..i + 16] == c[i..i + 16]
    ensures same ==> inp[..i] == CbcDecryptInPlace(k, start, c[..i])
    ensures !same ==> inp[..i] == c[..i]
  {
    hide CbcDecrypt, CbcDecryptInPlace;
    ReadFurther(c, inp, inp, i);
  }

  lemma DecryptingStart(k: Schedule, start: Block, c: seq<bv8>, out: seq<bv8>, same: bool)
    requires |out| == |c| && (same ==> out == c)
    ensures Decrypting(k, start, c, out, c, same, 0)
  {
    EmptyPrefix(k, start, c);
  }

  /** The block the first XOR of a decryption uses, if the initial vector starts at byte `at` of the output. What of it
      lies in the first block has been replaced by the deciphered first block by then. */
  ghost function DecryptStart(k: Schedule, start: Block, c: seq<bv8>, at: nat): Block {
    if |c| >= 16 then Mixed(InvCipherOf(c[..16], k), start, at) else start
  }

  /** With part of the initial vector replaced the decryption is still right exactly when the bytes that take its place
      are the same. */
  lemma LostVectorIsHarmlessIff(k: Schedule, start: Block, c: seq<bv8>, at: nat)
    requires Whole(c) && c != [] && at < 16
    ensures CbcDecrypt(k, DecryptStart(k, start, c, at), c) == CbcDecrypt(k, start, c)
            <==> InvCipherOf(c[..16], k)[at..] == start[..16 - at]
  {
    hide InvCipherOf, XorBlock;
    var x, rest := InvCipherOf(c[..16], k), CbcDecrypt(k, c[..16], c[16..]);
    var mixed := Mixed(x, start, at);
    var a, b := CbcDecrypt(k, mixed, c), CbcDecrypt(k, start, c);
    assert a == XorBlock(x, mixed) + rest && b == XorBlock(x, start) + rest;
    hide CbcDecrypt;
    if a == b {
      assert a[..16] == XorBlock(x, mixed) && b[..16] == XorBlock(x, start);
      XorBlockInjective(x, mixed, start);
    }
    MixedIsStartIff(x, start, at);
  }

  lemma MixedIsStartIff(x: Block, start: Block, at: nat)
    requires at < 16
    ensures Mixed(x, start, at) == start <==> x[at..] == start[..16 - at]
  {
    assert start == start[..16 - at] + start[16 - at..];
    assert Mixed(x, start, at)[..16 - at] == x[at..];
  }

  /** The loop of a decryption that started with the initial vector at a[at..], which held `given`. */
  ghost predicate DecryptLoop(ctx: Context, k: Schedule, start: Block, given: Block, c: seq<bv8>, output: array<bv8>,
                              input: array<bv8>, a: array<bv8>, at: nat, i: nat)
    reads ctx, ctx.roundKey, ctx.iv, output, input
  {
    && ctx.Valid() && ctx.iv != null && ctx.Keys() == k
    && output != ctx.roundKey && input != ctx.roundKey && output.Length == input.Length == |c| && i <= |c|
    && Decrypting(k, start, c, output[..], input[..], input == output, i)
    && i % 16 == 0
    && (if i > 0 then ctx.iv == input && ctx.ivAt == i - 16 && Chained(ctx) == LastBlock(start, input[..][..i])
        else ctx.iv == a && ctx.ivAt == at && Chained(ctx) == given)
  }

  method DecryptNext(ctx: Context, ghost k: Schedule, ghost start: Block, ghost given: Block, ghost c: seq<bv8>,
                     output: array<bv8>, input: array<bv8>, ghost a: array<bv8>, ghost at: nat, i: nat)
    requires DecryptLoop(ctx, k, start, given, c, output, input, a, at, i) && i + 16 <= |c| && Whole(c)
    requires start == DecryptStart(k, given, c, if a == output then at else 16)
    modifies ctx`iv, ctx`ivAt, output
    ensures DecryptLoop(ctx, k, start, given, c, output, input, a, at, i + 16)
  {
    hide KeyScheduleOf, InvCipherOf, XorBlock, CbcDecrypt, CbcDecryptInPlace, Decrypting;
    ghost var out, inp := output[..], input[..];
    DecryptingReads(k, start, c, out, inp, input == output, i);
    OneMoreDecrypted(k, start, c, i);
    DecryptBlock(ctx, output, i, input, i);
    assert i == 0 ==> c[i..i + 16] == c[..16] && LastBlock(start, inp[..i]) == start;
    DecryptingStep(k, start, c, out, inp, output[..], input[..], input == output, i);
    LastOfPrefix(start, input[..], i);
  }

  lemma DecryptLoopStarts(ctx: Context, k: Schedule, start: Block, given: Block, c: seq<bv8>, output: array<bv8>,
                          input: array<bv8>)
    requires ctx.Valid() && ctx.iv != null && ctx.Keys() == k && Chained(ctx) == given && input[..] == c
    requires output != ctx.roundKey && input != ctx.roundKey && output.Length == input.Length
    ensures DecryptLoop(ctx, k, start, given, c, output, input, ctx.iv, ctx.ivAt, 0)
  {
    hide Decrypting;
    DecryptingStart(k, start, c, output[..], input == output);
  }

  lemma DecryptLoopEnds(ctx: Context, k: Schedule, start: Block, given: Block, c: seq<bv8>, output: array<bv8>,
                        input: array<bv8>, a: array<bv8>, at: nat)
    requires DecryptLoop(ctx, k, start, given, c, output, input, a, at, |c|) && Whole(c)
    ensures ctx.Valid() && ctx.iv != null && ctx.Keys() == k && output.Length == input.Length == |c|
    ensures output[..] == if input == output then CbcDecryptInPlace(k, start, c) else CbcDecrypt(k, start, c)
    ensures if |c| > 0 then ctx.iv == input && ctx.ivAt == |c| - 16 else ctx.iv == a && ctx.ivAt == at
  {
    hide Decrypting, CbcDecrypt, CbcDecryptInPlace;
    DecryptingEnds(k, start, c, output[..], input[..], input == output);
  }

  /** With one buffer for both, the result is not the decryption: see InPlaceDecryptionIsRightIff; and neither is it
      with an initial vector that starts in the first block of the output: see LostVectorIsHarmlessIff. */
  method CbcDecryptBuffer(ctx: Context, output: array<bv8>, input: array<bv8>,
                          key: array?<bv8>, iv: array?<bv8>, ivAt: nat)
    requires ctx.Valid() && (iv == null ==> ctx.iv != null)
    requires key != null ==> key.Length == 16 && key != ctx.roundKey
    requires iv != null ==> ivAt + 16 <= iv.Length && iv != ctx.roundKey
    requires input.Length % 16 == 0 && output.Length == input.Length
    requires output != ctx.roundKey && input != ctx.roundKey
    modifies ctx.roundKey, ctx`iv, ctx`ivAt, output
    ensures ctx.Valid() && ctx.iv != null
    ensures ctx.Keys() == if key != null then KeyScheduleOf(old(key[..])) else old(ctx.Keys())
    ensures var start := DecryptStart(ctx.Keys(), old(StartBlock(ctx, iv, ivAt)), old(input[..]),
                                      if old(StartArray(ctx, iv)) == output then old(StartAt(ctx, iv, ivAt)) else 16);
            output[..] == if input == output then CbcDecryptInPlace(ctx.Keys(), start, old(input[..]))
                          else CbcDecrypt(ctx.Keys(), start, old(input[..]))
    ensures if input.Length > 0 then ctx.iv == input && ctx.ivAt == input.Length - 16
            else ctx.iv == old(StartArray(ctx, iv)) && ctx.ivAt == old(StartAt(ctx, iv, ivAt))
  {
    hide KeyScheduleOf, InvCipherOf, XorBlock, CbcDecrypt, CbcDecryptInPlace, DecryptLoop, DecryptStart;
    ghost var c, given, a, at := input[..], StartBlock(ctx, iv, ivAt), StartArray(ctx, iv), StartAt(ctx, iv, ivAt);
    SetKeyAndIv(ctx, key, iv, ivAt);
    ghost var k := ctx.Keys();
    ghost var start := DecryptStart(k, given, c, if a == output then at else 16);
    DecryptLoopStarts(ctx, k, start, given, c, output, input);
    var i := 0;
    while i < input.Length
      invariant 0 <= i <= input.Length && i % 16 == 0
      invariant DecryptLoop(ctx, k, start, given, c, output, input, a, at, i)
    {
      DecryptNext(ctx, k, start, given, c, output, input, a, at, i);
      i := i + 16;
    }
    DecryptLoopEnds(ctx, k, start, given, c, output, input, a, at);
  }

  /** A further call with null key and null initial vector carries the decryption on, if it is not in place and does not
      write over the block it chains from. */
  method CbcDecryptMore(ctx: Context, output: array<bv8>, input: array<bv8>, ghost start: Block, ghost before: seq<bv8>)
    requires ctx.Valid() && ctx.iv != null && input.Length % 16 == 0 && output.Length == input.Length
    requires output != ctx.roundKey && input != ctx.roundKey
    requires Whole(before) && Chained(ctx) == LastBlock(start, before)
    modifies ctx`iv, ctx`ivAt, ctx.roundKey, output
    ensures ctx.Valid() && ctx.iv != null && ctx.Keys() == old(ctx.Keys()) && Whole(before + old(input[..]))
    ensures input != output && (old(ctx.iv) != output || old(ctx.ivAt) >= 16) ==>
              CbcDecrypt(ctx.Keys(), start, before + old(input[..]))
              == CbcDecrypt(ctx.Keys(), start, before) + output[..]
    ensures input != output ==> Chained(ctx) == LastBlock(start, before + old(input[..]))
  {
    hide CbcDecrypt, CbcDecryptInPlace, InvCipherOf;
    ghost var c := input[..];
    CbcDecryptBuffer(ctx, output, input, null, null, 0);
    CbcDecryptAppend(ctx.Keys(), start, before, c);
    LastOfBoth(start, before, c);
  }
}
