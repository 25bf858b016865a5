/** Cipher block chaining over any block cipher: section 6.2 of NIST SP 800-38A, and the loops of
    the crypto API that compute it. */
module Cbc {

  type Bytes = seq<bv8>

  /** A block cipher or its inverse under one key. */
  type Cipher = Bytes -> Bytes

  function Xor1(a: bv8, b: bv8): bv8 {
    a ^ b
  }

  /** crypto_xor */
  function Xor(a: Bytes, b: Bytes): (c: Bytes)
    requires |a| == |b|
    ensures |c| == |a| && forall i | 0 <= i < |a| :: c[i] == Xor1(a[i], b[i])
  {
    seq(|a|, i requires 0 <= i < |a| => Xor1(a[i], b[i]))
  }

  lemma XorTwice1(a: bv8, b: bv8)
    ensures Xor1(Xor1(a, b), b) == a && Xor1(a, b) == Xor1(b, a)
  {
    assert (a ^ b) ^ b == a;
  }

  lemma XorTwice(a: Bytes, b: Bytes)
    requires |a| == |b|
    ensures Xor(Xor(a, b), b) == a
  {
    hide Xor1;
    forall i | 0 <= i < |a| ensures Xor(Xor(a, b), b)[i] == a[i] {
      XorTwice1(a[i], b[i]);
    }
  }

  lemma XorComm(a: Bytes, b: Bytes)
    requires |a| == |b|
    ensures Xor(a, b) == Xor(b, a)
  {
    hide Xor1;
    forall i | 0 <= i < |a| ensures Xor(a, b)[i] == Xor(b, a)[i] {
      XorTwice1(a[i], b[i]);
    }
  }

  ghost predicate IsCipher(f: Cipher, bs: nat) {
    bs > 0 && forall x: Bytes | |x| == bs :: |f(x)| == bs
  }

  lemma Positive(f: Cipher, bs: nat)
    requires IsCipher(f, bs)
    ensures bs > 0
  {
  }

  lemma CipherSize(f: Cipher, bs: nat, x: Bytes)
    requires IsCipher(f, bs) && |x| == bs
    ensures |f(x)| == bs
  {
  }

  ghost predicate Inverse(e: Cipher, d: Cipher, bs: nat) {
    forall x: Bytes | |x| == bs :: d(e(x)) == x
  }

  /** A whole number of blocks. */
  predicate Aligned(bs: nat, n: nat)
    requires bs > 0
    decreases n
  {
    n == 0 || (n >= bs && Aligned(bs, n - bs))
  }

  lemma {:induction false} AlignedNext(bs: nat, n: nat)
    requires bs > 0 && Aligned(bs, n)
    ensures Aligned(bs, n + bs)
  {
  }

  /** The bytes after the last whole block: nbytes & (bsize - 1). */
  function Rest(bs: nat, n: nat): (r: nat)
    requires bs > 0
    ensures r < bs && r <= n && Aligned(bs, n - r)
    decreases n
  {
    if n < bs then n else Rest(bs, n - bs)
  }

  lemma RestSmall(bs: nat, n: nat)
    requires n < bs
    ensures Rest(bs, n) == n
  {
  }

  lemma RestStep(bs: nat, n: nat)
    requires 0 < bs <= n
    ensures Rest(bs, n) == Rest(bs, n - bs) <= n - bs
  {
  }

  lemma RestBelow(bs: nat, n: nat)
    requires 0 < bs <= n < bs + bs
    ensures Rest(bs, n) == n - bs
  {
  }

  // ---------------------------------------------------------------------------
  // The mode
  // ---------------------------------------------------------------------------

  /** Each ciphertext block is the cipher of the plaintext block exclusive-or the block before;
      what does not fill a block stays. */
  ghost function Encrypt(e: Cipher, bs: nat, iv: Bytes, p: Bytes): (c: Bytes)
    requires IsCipher(e, bs) && |iv| == bs
    ensures |c| == |p|
    decreases |p|
  {
    if |p| < bs then p
    else
      var c := e(Xor(p[..bs], iv));
      c + Encrypt(e, bs, c, p[bs..])
  }

  lemma EncryptNone(e: Cipher, bs: nat, iv: Bytes)
    requires IsCipher(e, bs) && |iv| == bs
    ensures Encrypt(e, bs, iv, []) == [] && NextIv(bs, iv, []) == iv
  {
  }

  lemma EncryptStep(e: Cipher, bs: nat, iv: Bytes, p: Bytes)
    requires IsCipher(e, bs) && |iv| == bs && |p| >= bs
    ensures |e(Xor(p[..bs], iv))| == bs
    ensures Encrypt(e, bs, iv, p) == e(Xor(p[..bs], iv)) + Encrypt(e, bs, e(Xor(p[..bs], iv)), p[bs..])
  {
  }

  lemma FirstBlock(e: Cipher, bs: nat, iv: Bytes, a: Bytes, b: Bytes)
    requires IsCipher(e, bs) && |iv| == bs && |a| >= bs
    ensures |e(Xor(a[..bs], iv))| == bs
    ensures Encrypt(e, bs, iv, a + b) == e(Xor(a[..bs], iv)) + Encrypt(e, bs, e(Xor(a[..bs], iv)), a[bs..] + b)
  {
    hide Xor;
    assert (a + b)[..bs] == a[..bs] && (a + b)[bs..] == a[bs..] + b;
  }

  ghost function Decrypt(d: Cipher, bs: nat, iv: Bytes, c: Bytes): (p: Bytes)
    requires IsCipher(d, bs) && |iv| == bs
    ensures |p| == |c|
    decreases |c|
  {
    if |c| < bs then c
    else Xor(d(c[..bs]), iv) + Decrypt(d, bs, c[..bs], c[bs..])
  }

  lemma DecryptStep(d: Cipher, bs: nat, iv: Bytes, c: Bytes)
    requires IsCipher(d, bs) && |iv| == bs && |c| >= bs
    ensures |d(c[..bs])| == bs && Decrypt(d, bs, iv, c) == Xor(d(c[..bs]), iv) + Decrypt(d, bs, c[..bs], c[bs..])
  {
  }

  /** The IV for what follows: the last whole ciphertext block. */
  function NextIv(bs: nat, iv: Bytes, c: Bytes): (r: Bytes)
    requires bs > 0 && |iv| == bs
    ensures |r| == bs
    decreases |c|
  {
    if |c| < bs then iv else NextIv(bs, c[..bs], c[bs..])
  }

  lemma NextIvStep(bs: nat, iv: Bytes, c: Bytes, rest: Bytes)
    requires bs > 0 && |iv| == bs == |c|
    ensures NextIv(bs, iv, c + rest) == NextIv(bs, c, rest)
  {
    assert (c + rest)[..bs] == c && (c + rest)[bs..] == rest;
  }

  lemma ShortTail(bs: nat, iv: Bytes, c: Bytes)
    requires |c| < bs == |iv|
    ensures NextIv(bs, iv, c) == iv
  {
  }

  /** Decryption inverts encryption, for data of any length. */
  lemma {:induction false} DecryptInverts(e: Cipher, d: Cipher, bs: nat, iv: Bytes, p: Bytes)
    requires IsCipher(e, bs) && IsCipher(d, bs) && Inverse(e, d, bs) && |iv| == bs
    ensures Decrypt(d, bs, iv, Encrypt(e, bs, iv, p)) == p
    decreases |p|
  {
    hide Xor;
    if |p| >= bs {
      var x := Xor(p[..bs], iv);
      var c := e(x);
      var rest := Encrypt(e, bs, c, p[bs..]);
      DecryptInverts(e, d, bs, c, p[bs..]);
      assert Encrypt(e, bs, iv, p) == c + rest;
      assert (c + rest)[..bs] == c && (c + rest)[bs..] == rest;
      assert d(c) == x;
      XorTwice(p[..bs], iv);
      assert p[..bs] + p[bs..] == p;
    }
  }

  /** The block before the one at `at`: the IV before the first. */
  ghost function Before(bs: nat, iv: Bytes, c: Bytes, at: nat): (b: Bytes)
    requires |iv| == bs && at <= |c|
    ensures |b| == bs
  {
    if at < bs then iv else c[at - bs..at]
  }

  /** The mode at one place: c holds there the cipher of p exclusive-or the ciphertext block before;
      what does not fill a block stays. */
  ghost predicate ChainsAt(e: Cipher, bs: nat, iv: Bytes, p: Bytes, c: Bytes, at: nat) {
    && |c| == |p| && |iv| == bs && at <= |p|
    && if at + bs <= |p| then c[at..at + bs] == e(Xor(p[at..at + bs], Before(bs, iv, c, at))) else c[at..] == p[at..]
  }

  /** The same for decryption. */
  ghost predicate UnchainsAt(d: Cipher, bs: nat, iv: Bytes, p: Bytes, c: Bytes, at: nat) {
    && |c| == |p| && |iv| == bs && at <= |p|
    && if at + bs <= |p| then |d(c[at..at + bs])| == bs && p[at..at + bs] == Xor(d(c[at..at + bs]), Before(bs, iv, c, at))
       else p[at..] == c[at..]
  }

  lemma Shifted(a: Bytes, b: Bytes, at: nat, n: nat)
    requires |a| <= at && at + n <= |a| + |b|
    ensures (a + b)[at..at + n] == b[at - |a|..at - |a| + n] && (a + b)[at..] == b[at - |a|..]
  {
  }

  lemma BeforeShifted(bs: nat, iv: Bytes, a: Bytes, b: Bytes, at: nat)
    requires |iv| == |a| == bs && bs <= at <= |a| + |b| && (at == bs || at >= bs + bs)
    ensures Before(bs, iv, a + b, at) == Before(bs, a, b, at - bs)
  {
    if at == bs {
      assert (a + b)[0..bs] == a;
    } else {
      Shifted(a, b, at - bs, bs);
    }
  }

  lemma ChainsOn(e: Cipher, bs: nat, iv: Bytes, p0: Bytes, p: Bytes, c0: Bytes, c: Bytes, at: nat)
    requires bs > 0 && |iv| == |p0| == |c0| == bs <= at && (at == bs || at >= bs + bs) && ChainsAt(e, bs, c0, p, c, at - bs)
    ensures ChainsAt(e, bs, iv, p0 + p, c0 + c, at)
  {
    hide Xor, Before;
    BeforeShifted(bs, iv, c0, c, at);
    var n := if at <= |p| then bs else 0;
    Shifted(p0, p, at, n);
    Shifted(c0, c, at, n);
  }

  lemma UnchainsOn(d: Cipher, bs: nat, iv: Bytes, p0: Bytes, p: Bytes, c0: Bytes, c: Bytes, at: nat)
    requires bs > 0 && |iv| == |p0| == |c0| == bs <= at && (at == bs || at >= bs + bs) && UnchainsAt(d, bs, c0, p, c, at - bs)
    ensures UnchainsAt(d, bs, iv, p0 + p, c0 + c, at)
  {
    hide Xor, Before;
    BeforeShifted(bs, iv, c0, c, at);
    var n := if at <= |p| then bs else 0;
    Shifted(p0, p, at, n);
    Shifted(c0, c, at, n);
  }

  lemma AlignedFrom(bs: nat, n: nat)
    requires bs > 0 && Aligned(bs, n) && n > 0
    ensures n >= bs && Aligned(bs, n - bs) && (n == bs || n >= bs + bs)
  {
  }

  /** Encryption is the mode, at every block. */
  lemma {:induction false} EncryptChains(e: Cipher, bs: nat, iv: Bytes, p: Bytes, at: nat)
    requires IsCipher(e, bs) && |iv| == bs && Aligned(bs, at) && at <= |p|
    ensures ChainsAt(e, bs, iv, p, Encrypt(e, bs, iv, p), at)
    decreases at
  {
    hide Xor, Aligned;
    if at > 0 {
      Positive(e, bs);
      AlignedFrom(bs, at);
      EncryptStep(e, bs, iv, p);
      var c0 := e(Xor(p[..bs], iv));
      EncryptChains(e, bs, c0, p[bs..], at - bs);
      ChainsOn(e, bs, iv, p[..bs], p[bs..], c0, Encrypt(e, bs, c0, p[bs..]), at);
      assert p[..bs] + p[bs..] == p;
    }
  }

  /** Decryption is the mode, at every block. */
  lemma {:induction false} DecryptChains(d: Cipher, bs: nat, iv: Bytes, c: Bytes, at: nat)
    requires IsCipher(d, bs) && |iv| == bs && Aligned(bs, at) && at <= |c|
    ensures UnchainsAt(d, bs, iv, Decrypt(d, bs, iv, c), c, at)
    decreases at
  {
    hide Xor, Aligned;
    if at > 0 {
      Positive(d, bs);
      AlignedFrom(bs, at);
      DecryptStep(d, bs, iv, c);
      DecryptChains(d, bs, c[..bs], c[bs..], at - bs);
      UnchainsOn(d, bs, iv, Xor(d(c[..bs]), iv), Decrypt(d, bs, c[..bs], c[bs..]), c[..bs], c[bs..], at);
      assert c[..bs] + c[bs..] == c;
    }
  }

  lemma {:induction false} NextIvConcat(bs: nat, iv: Bytes, a: Bytes, b: Bytes)
    requires bs > 0 && |iv| == bs && Aligned(bs, |a|)
    ensures NextIv(bs, NextIv(bs, iv, a), b) == NextIv(bs, iv, a + b)
    decreases |a|
  {
    if a == [] {
      assert a + b == b;
    } else {
      NextIvConcat(bs, a[..bs], a[bs..], b);
      assert (a + b)[..bs] == a[..bs] && (a + b)[bs..] == a[bs..] + b;
    }
  }

  /** Whole blocks first, then the rest with the carried IV, is one pass. */
  lemma {:induction false} EncryptConcat(e: Cipher, bs: nat, iv: Bytes, a: Bytes, b: Bytes)
    requires IsCipher(e, bs) && |iv| == bs && Aligned(bs, |a|)
    ensures Encrypt(e, bs, iv, a + b)
         == Encrypt(e, bs, iv, a) + Encrypt(e, bs, NextIv(bs, iv, Encrypt(e, bs, iv, a)), b)
    decreases |a|
  {
    assert bs > 0;
    hide Xor, Encrypt, NextIv, IsCipher;
    if a == [] {
      assert a + b == b;
      EncryptNone(e, bs, iv);
    } else {
      EncryptStep(e, bs, iv, a);
      var c := e(Xor(a[..bs], iv));
      var rest := Encrypt(e, bs, c, a[bs..]);
      NextIvStep(bs, iv, c, rest);
      EncryptConcat(e, bs, c, a[bs..], b);
      FirstBlock(e, bs, iv, a, b);
      var tail := Encrypt(e, bs, NextIv(bs, c, rest), b);
      assert c + (rest + tail) == (c + rest) + tail;
    }
  }

  /** One more block. */
  lemma EncryptBlock(e: Cipher, bs: nat, iv: Bytes, a: Bytes, b: Bytes)
    requires IsCipher(e, bs) && |iv| == bs && Aligned(bs, |a|) && |b| == bs
    ensures var iv' := NextIv(bs, iv, Encrypt(e, bs, iv, a));
            var c := e(Xor(b, iv'));
            && |c| == bs
            && Encrypt(e, bs, iv, a + b) == Encrypt(e, bs, iv, a) + c
            && NextIv(bs, iv, Encrypt(e, bs, iv, a) + c) == c
  {
    EncryptConcat(e, bs, iv, a, b);
    var iv' := NextIv(bs, iv, Encrypt(e, bs, iv, a));
    EncryptStep(e, bs, iv', b);
    var c := e(Xor(b[..bs], iv'));
    assert b[..bs] == b && b[bs..] == [];
    EncryptNone(e, bs, c);
    assert c + [] == c;
    NextIvConcat(bs, iv, Encrypt(e, bs, iv, a), c);
    NextIvStep(bs, iv', c, []);
    EncryptNone(e, bs, c);
  }

  lemma {:induction false} DecryptConcat(d: Cipher, bs: nat, iv: Bytes, a: Bytes, b: Bytes)
    requires IsCipher(d, bs) && |iv| == bs && Aligned(bs, |a|)
    ensures Decrypt(d, bs, iv, a + b) == Decrypt(d, bs, iv, a) + Decrypt(d, bs, NextIv(bs, iv, a), b)
    decreases |a|
  {
    hide Xor;
    if a == [] {
      assert a + b == b;
    } else {
      assert (a + b)[..bs] == a[..bs] && (a + b)[bs..] == a[bs..] + b;
      DecryptConcat(d, bs, a[..bs], a[bs..], b);
    }
  }

  /** One more block. */
  lemma DecryptBlock(d: Cipher, bs: nat, iv: Bytes, a: Bytes, b: Bytes)
    requires IsCipher(d, bs) && |iv| == bs && Aligned(bs, |a|) && |b| == bs
    ensures |d(b)| == bs
    ensures Decrypt(d, bs, iv, a + b) == Decrypt(d, bs, iv, a) + Xor(d(b), NextIv(bs, iv, a))
    ensures NextIv(bs, iv, a + b) == b
  {
    hide Xor;
    DecryptConcat(d, bs, iv, a, b);
    NextIvConcat(bs, iv, a, b);
    assert b[..bs] == b && b[bs..] == [];
    assert Decrypt(d, bs, NextIv(bs, iv, a), b) == Xor(d(b), NextIv(bs, iv, a)) + [];
  }

  // ---------------------------------------------------------------------------
  // Chunks
  // ---------------------------------------------------------------------------

  ghost predicate AllAligned(bs: nat, chunks: seq<Bytes>)
    requires bs > 0
  {
    forall i | 0 <= i < |chunks| - 1 :: Aligned(bs, |chunks[i]|)
  }

  ghost function Flat(chunks: seq<Bytes>): Bytes {
    if chunks == [] then [] else chunks[0] + Flat(chunks[1..])
  }

  /** The driving loop of crypto_cbc_encrypt: one chunk of the walk after another. */
  ghost function EncryptChunks(e: Cipher, bs: nat, iv: Bytes, chunks: seq<Bytes>): Bytes
    requires IsCipher(e, bs) && |iv| == bs
    decreases |chunks|
  {
    if chunks == [] then []
    else
      var c := Encrypt(e, bs, iv, chunks[0]);
      c + EncryptChunks(e, bs, NextIv(bs, iv, c), chunks[1..])
  }

  /** The driving loop of crypto_cbc_decrypt */
  ghost function DecryptChunks(d: Cipher, bs: nat, iv: Bytes, chunks: seq<Bytes>): Bytes
    requires IsCipher(d, bs) && |iv| == bs
    decreases |chunks|
  {
    if chunks == [] then []
    else Decrypt(d, bs, iv, chunks[0]) + DecryptChunks(d, bs, NextIv(bs, iv, chunks[0]), chunks[1..])
  }

  /** However the data is cut into chunks of whole blocks, the result is that of one pass. */
  lemma {:induction false} ChunksEncryptAsOne(e: Cipher, bs: nat, iv: Bytes, chunks: seq<Bytes>)
    requires IsCipher(e, bs) && |iv| == bs && AllAligned(bs, chunks)
    ensures EncryptChunks(e, bs, iv, chunks) == Encrypt(e, bs, iv, Flat(chunks))
    decreases |chunks|
  {
    if |chunks| == 1 {
      assert chunks[1..] == [] && Flat(chunks) == chunks[0];
    } else if |chunks| > 1 {
      var c := Encrypt(e, bs, iv, chunks[0]);
      assert Aligned(bs, |chunks[0]|);
      assert forall i | 0 <= i < |chunks[1..]| - 1 :: chunks[1..][i] == chunks[i + 1];
      ChunksEncryptAsOne(e, bs, NextIv(bs, iv, c), chunks[1..]);
      EncryptConcat(e, bs, iv, chunks[0], Flat(chunks[1..]));
    }
  }

  lemma {:induction false} ChunksDecryptAsOne(d: Cipher, bs: nat, iv: Bytes, chunks: seq<Bytes>)
    requires IsCipher(d, bs) && |iv| == bs && AllAligned(bs, chunks)
    ensures DecryptChunks(d, bs, iv, chunks) == Decrypt(d, bs, iv, Flat(chunks))
    decreases |chunks|
  {
    if |chunks| == 1 {
      assert chunks[1..] == [] && Flat(chunks) == chunks[0];
    } else if |chunks| > 1 {
      assert Aligned(bs, |chunks[0]|);
      assert forall i | 0 <= i < |chunks[1..]| - 1 :: chunks[1..][i] == chunks[i + 1];
      ChunksDecryptAsOne(d, bs, NextIv(bs, iv, chunks[0]), chunks[1..]);
      DecryptConcat(d, bs, iv, chunks[0], Flat(chunks[1..]));
    }
  }

  // ---------------------------------------------------------------------------
  // Buffers
  // ---------------------------------------------------------------------------

  /** a with block at off. */
  ghost function Put(a: Bytes, off: nat, block: Bytes): (b: Bytes)
    requires off + |block| <= |a|
    ensures |b| == |a|
  {
    a[..off] + block + a[off + |block|..]
  }

  lemma PutTwice(a: Bytes, off: nat, x: Bytes, y: Bytes)
    requires off + |x| <= |a| && |x| == |y|
    ensures Put(a, off, x)[off..off + |x|] == x
    ensures Put(Put(a, off, x), off, y) == Put(a, off, y)
  {
  }

  lemma Slices(a: Bytes, off: nat, block: Bytes, b: Bytes)
    requires off + |block| <= |a| && b == Put(a, off, block)
    ensures b[..off] == a[..off] && b[off..off + |block|] == block && b[off + |block|..] == a[off + |block|..]
  {
  }

  /** memcpy of a block into a buffer */
  method Store(a: array<bv8>, off: nat, block: Bytes)
    requires off + |block| <= a.Length
    modifies a
    ensures a[..] == Put(old(a[..]), off, block)
  {
    var i := 0;
    while i < |block|
      invariant i <= |block|
      invariant forall j | 0 <= j < a.Length :: a[j] == if off <= j < off + i then block[j - off] else old(a[j])
    {
      a[off + i] := block[i];
      i := i + 1;
    }
  }

  /** memcpy of a block over a whole buffer */
  method Fill(a: array<bv8>, block: Bytes)
    requires |block| == a.Length
    modifies a
    ensures a[..] == block
  {
    Store(a, 0, block);
  }

  // ---------------------------------------------------------------------------
  // Encryption on buffers
  // ---------------------------------------------------------------------------

  /** What is done after off bytes: dst holds the ciphertext of the blocks before, the rest of it
      is untouched, and iv is the last block. */
  ghost predicate Encrypted(e: Cipher, bs: nat, iv0: Bytes, p: Bytes, was: Bytes, c: Bytes, iv: Bytes, off: nat)
    requires IsCipher(e, bs) && |iv0| == bs
  {
    && off <= |p| && |c| == |was| && off <= |c| && Aligned(bs, off)
    && c[..off] == Encrypt(e, bs, iv0, p[..off])
    && iv == NextIv(bs, iv0, c[..off])
    && c[off..] == was[off..]
  }

  lemma EncryptedStart(e: Cipher, bs: nat, iv0: Bytes, p: Bytes, was: Bytes)
    requires IsCipher(e, bs) && |iv0| == bs
    ensures Encrypted(e, bs, iv0, p, was, was, iv0, 0)
  {
    EncryptNone(e, bs, iv0);
    assert p[..0] == [] && was[..0] == [];
  }

  lemma EncryptedNext(e: Cipher, bs: nat, iv0: Bytes, p: Bytes, was: Bytes, c: Bytes, iv: Bytes, off: nat, c': Bytes, iv': Bytes)
    requires IsCipher(e, bs) && |iv0| == bs && |iv| == bs && Encrypted(e, bs, iv0, p, was, c, iv, off)
    requires off + bs <= |p| && off + bs <= |c|
    requires iv' == e(Xor(p[off..off + bs], iv)) && |iv'| == bs && c' == Put(c, off, iv')
    ensures Encrypted(e, bs, iv0, p, was, c', iv', off + bs)
  {
    assert bs > 0;
    EncryptBlock(e, bs, iv0, p[..off], p[off..off + bs]);
    hide IsCipher, Encrypt, NextIv, Xor, Put;
    Slices(c, off, iv', c');
    AlignedNext(bs, off);
    assert p[..off] + p[off..off + bs] == p[..off + bs];
    assert c'[..off + bs] == c[..off] + iv';
    assert c'[off + bs..] == c[off..][bs..] == was[off..][bs..] == was[off + bs..];
  }

  /** One round of crypto_cbc_encrypt_segment */
  method EncryptBlockTo(e: Cipher, bs: nat, src: array<bv8>, dst: array<bv8>, iv: array<bv8>, off: nat)
    requires IsCipher(e, bs) && iv.Length == bs && off + bs <= src.Length && off + bs <= dst.Length
    requires src != dst && src != iv && dst != iv
    modifies dst, iv
    ensures iv[..] == e(Xor(src[off..off + bs], old(iv[..]))) && |iv[..]| == bs
    ensures dst[..] == Put(old(dst[..]), off, iv[..])
  {
    hide IsCipher, Xor, Put;
    ghost var iv0 := iv[..];
    var x := Xor(iv[..], src[off..off + bs]);
    XorComm(iv0, src[off..off + bs]);
    CipherSize(e, bs, x);
    Fill(iv, x);
    Store(dst, off, e(iv[..]));
    PutTwice(old(dst[..]), off, e(x), e(x));
    assert dst[off..off + bs] == dst[..][off..off + bs];
    Fill(iv, dst[off..off + bs]);
  }

  /** crypto_cbc_encrypt_segment: src to dst, with the IV in its buffer. */
  method EncryptSegment(e: Cipher, bs: nat, src: array<bv8>, dst: array<bv8>, iv: array<bv8>, nbytes: nat) returns (left: nat)
    requires IsCipher(e, bs) && iv.Length == bs <= nbytes <= src.Length && nbytes <= dst.Length
    requires src != dst && src != iv && dst != iv
    modifies dst, iv
    ensures left == Rest(bs, nbytes)
    ensures Encrypted(e, bs, old(iv[..]), src[..], old(dst[..]), dst[..], iv[..], nbytes - left)
  {
    hide *;
    Positive(e, bs);
    ghost var iv0, was := iv[..], dst[..];
    var off := 0;
    left := nbytes;
    EncryptedStart(e, bs, iv0, src[..], was);
    while true
      invariant off + left == nbytes && left >= bs && Rest(bs, left) == Rest(bs, nbytes)
      invariant Encrypted(e, bs, iv0, src[..], was, dst[..], iv[..], off)
      decreases left
    {
      ghost var c, i := dst[..], iv[..];
      RestStep(bs, left);
      EncryptBlockTo(e, bs, src, dst, iv, off);
      assert src[off..off + bs] == src[..][off..off + bs];
      EncryptedNext(e, bs, iv0, src[..], was, c, i, off, dst[..], iv[..]);
      off := off + bs;
      left := left - bs;
      if left < bs {
        RestSmall(bs, left);
        break;
      }
    }
  }

  lemma StillPlain(e: Cipher, bs: nat, iv0: Bytes, p: Bytes, c: Bytes, iv: Bytes, off: nat)
    requires IsCipher(e, bs) && |iv0| == bs && Encrypted(e, bs, iv0, p, p, c, iv, off) && off + bs <= |p|
    ensures off + bs <= |c| && c[off..off + bs] == p[off..off + bs]
  {
    hide IsCipher, Encrypt, NextIv;
    assert c[off..off + bs] == c[off..][..bs] == p[off..][..bs];
  }

  /** crypto_cbc_encrypt_inplace: iv points at the caller's vector, then at the block before. */
  method EncryptInPlace(e: Cipher, bs: nat, buf: array<bv8>, iv: array<bv8>, nbytes: nat) returns (left: nat)
    requires IsCipher(e, bs) && iv.Length == bs <= nbytes <= buf.Length
    requires buf != iv
    modifies buf, iv
    ensures left == Rest(bs, nbytes)
    ensures Encrypted(e, bs, old(iv[..]), old(buf[..]), old(buf[..]), buf[..], iv[..], nbytes - left)
  {
    hide *;
    Positive(e, bs);
    ghost var iv0, was := iv[..], buf[..];
    var off := 0;
    left := nbytes;
    var prev := iv[..];
    EncryptedStart(e, bs, iv0, was, was);
    while true
      invariant off + left == nbytes && left >= bs && Rest(bs, left) == Rest(bs, nbytes)
      invariant |prev| == bs && Encrypted(e, bs, iv0, was, was, buf[..], prev, off)
      decreases left
    {
      ghost var c := buf[..];
      StillPlain(e, bs, iv0, was, c, prev, off);
      RestStep(bs, left);
      var x := Xor(buf[off..off + bs], prev);
      CipherSize(e, bs, x);
      Store(buf, off, e(x));
      PutTwice(c, off, e(x), e(x));
      assert buf[off..off + bs] == buf[..][off..off + bs];
      EncryptedNext(e, bs, iv0, was, was, c, prev, off, buf[..], e(x));
      prev := buf[off..off + bs];
      off := off + bs;
      left := left - bs;
      if left < bs {
        RestSmall(bs, left);
        break;
      }
    }
    Fill(iv, prev);
  }

  // ---------------------------------------------------------------------------
  // Decryption, forward
  // ---------------------------------------------------------------------------

  /** What is done after off bytes of decryption. */
  ghost predicate Decrypted(d: Cipher, bs: nat, iv0: Bytes, c: Bytes, was: Bytes, p: Bytes, iv: Bytes, off: nat)
    requires IsCipher(d, bs) && |iv0| == bs
  {
    && off <= |c| && |p| == |was| && off <= |p| && Aligned(bs, off)
    && p[..off] == Decrypt(d, bs, iv0, c[..off])
    && iv == NextIv(bs, iv0, c[..off])
    && p[off..] == was[off..]
  }

  lemma DecryptedStart(d: Cipher, bs: nat, iv0: Bytes, c: Bytes, was: Bytes)
    requires IsCipher(d, bs) && |iv0| == bs
    ensures Decrypted(d, bs, iv0, c, was, was, iv0, 0)
  {
    assert c[..0] == [] && was[..0] == [];
  }

  lemma DecryptedNext(d: Cipher, bs: nat, iv0: Bytes, c: Bytes, was: Bytes, p: Bytes, iv: Bytes, off: nat, p': Bytes, block: Bytes)
    requires IsCipher(d, bs) && |iv0| == bs && |iv| == bs && Decrypted(d, bs, iv0, c, was, p, iv, off)
    requires off + bs <= |p| && off + bs <= |c|
    requires |d(c[off..off + bs])| == bs && block == Xor(d(c[off..off + bs]), iv) && p' == Put(p, off, block)
    ensures Decrypted(d, bs, iv0, c, was, p', c[off..off + bs], off + bs)
  {
    assert bs > 0;
    DecryptBlock(d, bs, iv0, c[..off], c[off..off + bs]);
    hide IsCipher, Decrypt, NextIv, Xor, Put;
    Slices(p, off, block, p');
    AlignedNext(bs, off);
    assert c[..off] + c[off..off + bs] == c[..off + bs];
    assert p'[..off + bs] == p[..off] + block;
    assert p'[off + bs..] == p[off..][bs..] == was[off..][bs..] == was[off + bs..];
  }

  /** The cipher into the buffer, then crypto_xor there. */
  method DecryptBlockTo(d: Cipher, bs: nat, c: Bytes, iv: Bytes, dst: array<bv8>, off: nat)
    requires IsCipher(d, bs) && |iv| == bs == |c| && off + bs <= dst.Length
    modifies dst
    ensures |d(c)| == bs && dst[..] == Put(old(dst[..]), off, Xor(d(c), iv))
  {
    hide IsCipher, Xor, Put;
    CipherSize(d, bs, c);
    Store(dst, off, d(c));
    PutTwice(old(dst[..]), off, d(c), Xor(d(c), iv));
    assert dst[off..off + bs] == dst[..][off..off + bs];
    Store(dst, off, Xor(dst[off..off + bs], iv));
  }

  /** crypto_cbc_decrypt_segment */
  method DecryptSegment(d: Cipher, bs: nat, src: array<bv8>, dst: array<bv8>, iv: array<bv8>, nbytes: nat) returns (left: nat)
    requires IsCipher(d, bs) && iv.Length == bs <= nbytes <= src.Length && nbytes <= dst.Length
    requires src != dst && src != iv && dst != iv
    modifies dst, iv
    ensures left == Rest(bs, nbytes)
    ensures Decrypted(d, bs, old(iv[..]), src[..], old(dst[..]), dst[..], iv[..], nbytes - left)
  {
    hide *;
    Positive(d, bs);
    ghost var iv0, was := iv[..], dst[..];
    ghost var c := src[..];
    var off := 0;
    left := nbytes;
    var prev := iv[..];
    DecryptedStart(d, bs, iv0, c, was);
    while true
      invariant off + left == nbytes && left >= bs && Rest(bs, left) == Rest(bs, nbytes)
      invariant src[..] == c && |prev| == bs && Decrypted(d, bs, iv0, c, was, dst[..], prev, off)
      decreases left
    {
      ghost var p := dst[..];
      var block := src[off..off + bs];
      assert block == c[off..off + bs];
      RestStep(bs, left);
      DecryptBlockTo(d, bs, block, prev, dst, off);
      DecryptedNext(d, bs, iv0, c, was, p, prev, off, dst[..], Xor(d(block), prev));
      prev := block;
      off := off + bs;
      left := left - bs;
      if left < bs {
        RestSmall(bs, left);
        break;
      }
    }
    Fill(iv, prev);
  }

  /** The two ways of decrypting agree: the forward loop also leaves Decrypt of the whole chunk,
      the bytes after the last block aside. */
  lemma ForwardIsWhole(d: Cipher, bs: nat, iv0: Bytes, c: Bytes, was: Bytes, p: Bytes, iv: Bytes, n: nat)
    requires IsCipher(d, bs) && |iv0| == bs && bs <= n <= |c|
    requires Decrypted(d, bs, iv0, c, was, p, iv, n - Rest(bs, n))
    ensures var end := n - Rest(bs, n);
            p[..end] == Decrypt(d, bs, iv0, c[..n])[..end] && iv == NextIv(bs, iv0, c[..n])
  {
    hide IsCipher, Decrypt, NextIv, Rest, Aligned;
    Positive(d, bs);
    var end := n - Rest(bs, n);
    DecryptConcat(d, bs, iv0, c[..end], c[end..n]);
    NextIvConcat(bs, iv0, c[..end], c[end..n]);
    ShortTail(bs, NextIv(bs, iv0, c[..end]), c[end..n]);
    assert c[..end] + c[end..n] == c[..n];
  }

  // ---------------------------------------------------------------------------
  // Decryption, backward
  // ---------------------------------------------------------------------------

  /** Going backward, with the block at off next: what lies after it is decrypted. */
  ghost predicate Behind(d: Cipher, bs: nat, c: Bytes, n: nat, p: Bytes, off: nat)
    requires IsCipher(d, bs)
  {
    && off + bs <= n <= |c| && |p| == |c|
    && p[..off + bs] == c[..off + bs]
    && p[off + bs..] == Decrypt(d, bs, c[off..off + bs], c[off + bs..n]) + c[n..]
  }

  lemma BehindStart(d: Cipher, bs: nat, c: Bytes, n: nat, off: nat)
    requires IsCipher(d, bs) && off + bs <= n <= |c| && n < off + bs + bs
    ensures Behind(d, bs, c, n, c, off)
  {
    assert c[off + bs..] == c[off + bs..n] + c[n..];
  }

  /** p with its block at off deciphered and mixed with v. */
  ghost function Mixed(d: Cipher, bs: nat, p: Bytes, off: nat, v: Bytes): Bytes
    requires IsCipher(d, bs) && |v| == bs && off + bs <= |p|
  {
    Put(p, off, Xor(d(p[off..off + bs]), v))
  }

  /** The block at off deciphered and mixed with v extends the decrypted part to it. */
  lemma BehindBlock(d: Cipher, bs: nat, c: Bytes, n: nat, p: Bytes, off: nat, v: Bytes, p': Bytes)
    requires IsCipher(d, bs) && |v| == bs && Behind(d, bs, c, n, p, off)
    requires p' == Mixed(d, bs, p, off, v)
    ensures |p'| == |c| && p'[..off] == c[..off]
    ensures p'[off..] == Decrypt(d, bs, v, c[off..n]) + c[n..]
  {
    hide IsCipher, Decrypt, Xor, Put;
    Positive(d, bs);
    var b := c[off..off + bs];
    assert p[off..off + bs] == p[..off + bs][off..] == b;
    DecryptStep(d, bs, v, c[off..n]);
    assert c[off..n][..bs] == b && c[off..n][bs..] == c[off + bs..n];
    var x := Xor(d(b), v);
    Slices(p, off, x, p');
    assert p[..off] == p[..off + bs][..off] == c[..off + bs][..off] == c[..off];
    var rest := Decrypt(d, bs, b, c[off + bs..n]);
    assert p'[off..] == x + (rest + c[n..]) == (x + rest) + c[n..];
  }

  lemma BehindNext(d: Cipher, bs: nat, c: Bytes, n: nat, p: Bytes, off: nat, p': Bytes)
    requires IsCipher(d, bs) && bs <= off && Behind(d, bs, c, n, p, off)
    requires p' == Mixed(d, bs, p, off, p[off - bs..off])
    ensures Behind(d, bs, c, n, p', off - bs)
  {
    hide Decrypt, Xor, Mixed;
    assert p[off - bs..off] == p[..off + bs][off - bs..off] == c[off - bs..off];
    BehindBlock(d, bs, c, n, p, off, p[off - bs..off], p');
  }

  lemma OneBlock(bs: nat, iv: Bytes, c: Bytes)
    requires 0 < bs == |iv| <= |c| < bs + bs
    ensures NextIv(bs, iv, c) == c[..bs] && Rest(bs, |c|) == |c| - bs
  {
  }

  lemma Rejoined(c: Bytes, k: nat)
    requires k <= |c|
    ensures c[..k] + c[k..] == c
  {
  }

  lemma Dropped(c: Bytes, k: nat, i: nat, j: nat)
    requires i <= j && k + j <= |c|
    ensures c[k..][i..j] == c[k + i..k + j]
  {
  }

  lemma {:induction false} LastIsNextIv(bs: nat, iv: Bytes, c: Bytes)
    requires bs > 0 && |iv| == bs <= |c|
    ensures bs <= |c| - Rest(bs, |c|)
    ensures c[|c| - Rest(bs, |c|) - bs..|c| - Rest(bs, |c|)] == NextIv(bs, iv, c)
    decreases |c|
  {
    hide NextIv, Rest, Aligned;
    RestStep(bs, |c|);
    if |c| < bs + bs {
      OneBlock(bs, iv, c);
    } else {
      var r := c[bs..];
      NextIvStep(bs, iv, c[..bs], r);
      LastIsNextIv(bs, c[..bs], r);
      RestStep(bs, |r|);
      Rejoined(c, bs);
      Dropped(c, bs, |r| - Rest(bs, |r|) - bs, |r| - Rest(bs, |r|));
    }
  }

  /** One round of crypto_cbc_decrypt_inplace */
  method DecryptAt(d: Cipher, bs: nat, buf: array<bv8>, off: nat, v: Bytes)
    requires IsCipher(d, bs) && |v| == bs && off + bs <= buf.Length
    modifies buf
    ensures buf[..] == Mixed(d, bs, old(buf[..]), off, v)
  {
    ghost var p := buf[..];
    assert p[off..off + bs] == buf[off..off + bs];
    hide IsCipher, Xor, Put;
    DecryptBlockTo(d, bs, buf[off..off + bs], v, buf, off);
  }

  ghost predicate BufferBehind(d: Cipher, bs: nat, c: Bytes, n: nat, buf: array<bv8>, off: nat)
    requires IsCipher(d, bs)
    reads buf
  {
    Behind(d, bs, c, n, buf[..], off)
  }

  lemma StartBehind(d: Cipher, bs: nat, n: nat, buf: array<bv8>, off: nat)
    requires IsCipher(d, bs) && off + bs <= n <= buf.Length && n < off + bs + bs
    ensures BufferBehind(d, bs, buf[..], n, buf, off)
  {
    hide IsCipher, Behind;
    BehindStart(d, bs, buf[..], n, off);
  }

  method BackRound(d: Cipher, bs: nat, buf: array<bv8>, off: nat, ghost c: Bytes, ghost n: nat)
    requires IsCipher(d, bs) && bs <= off && off + bs <= buf.Length && BufferBehind(d, bs, c, n, buf, off)
    modifies buf
    ensures BufferBehind(d, bs, c, n, buf, off - bs)
  {
    hide IsCipher, Behind, Mixed;
    ghost var p := buf[..];
    assert p[off - bs..off] == buf[off - bs..off];
    DecryptAt(d, bs, buf, off, buf[off - bs..off]);
    BehindNext(d, bs, c, n, p, off, buf[..]);
  }

  method LastRound(d: Cipher, bs: nat, buf: array<bv8>, v: Bytes, ghost c: Bytes, ghost n: nat)
    requires IsCipher(d, bs) && |v| == bs <= n <= |c| == buf.Length && BufferBehind(d, bs, c, n, buf, 0)
    modifies buf
    ensures buf[..] == Decrypt(d, bs, v, c[..n]) + c[n..]
  {
    hide IsCipher, Behind, Mixed, Decrypt;
    ghost var p := buf[..];
    DecryptAt(d, bs, buf, 0, v);
    BehindBlock(d, bs, c, n, p, 0, v, buf[..]);
    assert c[0..n] == c[..n] && buf[..][0..] == buf[..];
  }

  /** The loop of crypto_cbc_decrypt_inplace, from the last block down to the first: the block
      before is still ciphertext when it is mixed in. */
  method DecryptBack(d: Cipher, bs: nat, buf: array<bv8>, nbytes: nat) returns (left: nat)
    requires IsCipher(d, bs) && bs <= nbytes <= buf.Length
    modifies buf
    ensures left == Rest(bs, nbytes) + bs
    ensures BufferBehind(d, bs, old(buf[..]), nbytes, buf, 0)
  {
    hide *;
    Positive(d, bs);
    ghost var c := buf[..];
    RestStep(bs, nbytes);
    var off: nat := nbytes - Rest(bs, nbytes) - bs;
    StartBehind(d, bs, nbytes, buf, off);
    left := nbytes;
    while left - bs >= bs
      invariant bs <= left <= nbytes && Rest(bs, left) == Rest(bs, nbytes) && off + bs + Rest(bs, nbytes) == left
      invariant BufferBehind(d, bs, c, nbytes, buf, off)
      decreases left
    {
      RestStep(bs, left);
      left := left - bs;
      RestStep(bs, left);
      BackRound(d, bs, buf, off, c, nbytes);
      off := off - bs;
    }
    RestBelow(bs, left);
  }

  /** crypto_cbc_decrypt_inplace computes what the forward loop does. */
  method DecryptInPlace(d: Cipher, bs: nat, buf: array<bv8>, iv: array<bv8>, nbytes: nat) returns (left: nat)
    requires IsCipher(d, bs) && iv.Length == bs <= nbytes <= buf.Length
    requires buf != iv
    modifies buf, iv
    ensures left == Rest(bs, nbytes)
    ensures buf[..] == Decrypt(d, bs, old(iv[..]), old(buf[..nbytes])) + old(buf[nbytes..])
    ensures iv[..] == NextIv(bs, old(iv[..]), old(buf[..nbytes]))
  {
    hide *;
    Positive(d, bs);
    ghost var c, iv0 := buf[..], iv[..];
    LastIsNextIv(bs, iv0, c[..nbytes]);
    var start := nbytes - Rest(bs, nbytes) - bs;
    var last := buf[start..start + bs];
    assert last == c[..nbytes][start..start + bs];
    left := DecryptBack(d, bs, buf, nbytes);
    left := left - bs;
    LastRound(d, bs, buf, iv[..], c, nbytes);
    Fill(iv, last);
  }

  // ---------------------------------------------------------------------------
  // The driving loops
  // ---------------------------------------------------------------------------

  /** What the walk hands out: whole blocks, at least one. */
  ghost predicate AllWhole(bs: nat, chunks: seq<Bytes>)
    requires bs > 0
  {
    forall i | 0 <= i < |chunks| :: bs <= |chunks[i]| && Aligned(bs, |chunks[i]|)
  }

  lemma {:induction false} NoRest(bs: nat, n: nat)
    requires bs > 0 && Aligned(bs, n)
    ensures Rest(bs, n) == 0
    decreases n
  {
    if n == 0 {
      RestSmall(bs, n);
    } else {
      NoRest(bs, n - bs);
      RestStep(bs, n);
    }
  }

  lemma {:induction false} AlignedSum(bs: nat, m: nat, n: nat)
    requires bs > 0 && Aligned(bs, m) && Aligned(bs, n)
    ensures Aligned(bs, m + n)
    decreases m
  {
    if m > 0 {
      AlignedSum(bs, m - bs, n);
    }
  }

  lemma {:induction false} FlatMore(chunks: seq<Bytes>, i: nat)
    requires i < |chunks|
    ensures Flat(chunks[..i + 1]) == Flat(chunks[..i]) + chunks[i]
  {
    if i == 0 {
      assert chunks[..1][1..] == [];
    } else {
      FlatMore(chunks[1..], i - 1);
      assert chunks[1..][..i] == chunks[..i + 1][1..] && chunks[1..][..i - 1] == chunks[..i][1..];
    }
  }

  lemma AllOf(chunks: seq<Bytes>)
    ensures chunks[..|chunks|] == chunks && Flat(chunks[..0]) == []
  {
  }

  lemma WholeEncrypted(e: Cipher, bs: nat, iv0: Bytes, p: Bytes, was: Bytes, c: Bytes, iv: Bytes, n: nat)
    requires IsCipher(e, bs) && |iv0| == bs && n == |p| <= |was| && Encrypted(e, bs, iv0, p, was, c, iv, n)
    ensures n <= |c| && c[..n] == Encrypt(e, bs, iv0, p) && iv == NextIv(bs, iv0, c[..n])
  {
    hide IsCipher, Encrypt, NextIv;
    assert p[..n] == p;
  }

  lemma WholeDecrypted(d: Cipher, bs: nat, iv0: Bytes, c: Bytes, was: Bytes, p: Bytes, iv: Bytes, n: nat)
    requires IsCipher(d, bs) && |iv0| == bs && n == |c| <= |was| && Decrypted(d, bs, iv0, c, was, p, iv, n)
    ensures n <= |p| && p[..n] == Decrypt(d, bs, iv0, c) && iv == NextIv(bs, iv0, c)
  {
    hide IsCipher, Decrypt, NextIv;
    assert c[..n] == c;
  }

  /** One chunk of the walk, in one buffer or from one to another. */
  method EncryptChunk(e: Cipher, bs: nat, p: Bytes, inPlace: bool, iv: array<bv8>) returns (c: Bytes)
    requires IsCipher(e, bs) && iv.Length == bs <= |p| && Aligned(bs, |p|)
    modifies iv
    ensures c == Encrypt(e, bs, old(iv[..]), p) && iv[..] == NextIv(bs, old(iv[..]), c)
  {
    hide *;
    Positive(e, bs);
    ghost var iv0 := iv[..];
    NoRest(bs, |p|);
    var src := new bv8[|p|];
    Fill(src, p);
    if inPlace {
      var _ := EncryptInPlace(e, bs, src, iv, |p|);
      WholeEncrypted(e, bs, iv0, p, p, src[..], iv[..], |p|);
      c := src[..];
      assert src[..][..|p|] == c;
    } else {
      var dst := new bv8[|p|];
      ghost var was := dst[..];
      var _ := EncryptSegment(e, bs, src, dst, iv, |p|);
      WholeEncrypted(e, bs, iv0, p, was, dst[..], iv[..], |p|);
      c := dst[..];
      assert dst[..][..|p|] == c;
    }
  }

  method DecryptChunk(d: Cipher, bs: nat, c: Bytes, inPlace: bool, iv: array<bv8>) returns (p: Bytes)
    requires IsCipher(d, bs) && iv.Length == bs <= |c| && Aligned(bs, |c|)
    modifies iv
    ensures p == Decrypt(d, bs, old(iv[..]), c) && iv[..] == NextIv(bs, old(iv[..]), c)
  {
    hide *;
    Positive(d, bs);
    ghost var iv0 := iv[..];
    NoRest(bs, |c|);
    var src := new bv8[|c|];
    Fill(src, c);
    if inPlace {
      assert src[..|c|] == c && src[|c|..] == [];
      var _ := DecryptInPlace(d, bs, src, iv, |c|);
      p := src[..];
    } else {
      var dst := new bv8[|c|];
      ghost var was := dst[..];
      var _ := DecryptSegment(d, bs, src, dst, iv, |c|);
      WholeDecrypted(d, bs, iv0, c, was, dst[..], iv[..], |c|);
      p := dst[..];
      assert dst[..][..|c|] == p;
    }
  }

  /** What one more chunk adds. */
  lemma ChunkEncrypted(e: Cipher, bs: nat, iv0: Bytes, chunks: seq<Bytes>, i: nat, out: Bytes)
    requires IsCipher(e, bs) && |iv0| == bs && AllWhole(bs, chunks) && i < |chunks|
    requires Aligned(bs, |Flat(chunks[..i])|) && out == Encrypt(e, bs, iv0, Flat(chunks[..i]))
    ensures var c := Encrypt(e, bs, NextIv(bs, iv0, out), chunks[i]);
            && Aligned(bs, |Flat(chunks[..i + 1])|)
            && out + c == Encrypt(e, bs, iv0, Flat(chunks[..i + 1]))
            && NextIv(bs, NextIv(bs, iv0, out), c) == NextIv(bs, iv0, out + c)
  {
    hide IsCipher, Encrypt, NextIv, Flat, Aligned;
    Positive(e, bs);
    FlatMore(chunks, i);
    AlignedSum(bs, |Flat(chunks[..i])|, |chunks[i]|);
    EncryptConcat(e, bs, iv0, Flat(chunks[..i]), chunks[i]);
    NextIvConcat(bs, iv0, out, Encrypt(e, bs, NextIv(bs, iv0, out), chunks[i]));
  }

  lemma ChunkDecrypted(d: Cipher, bs: nat, iv0: Bytes, chunks: seq<Bytes>, i: nat, out: Bytes)
    requires IsCipher(d, bs) && |iv0| == bs && AllWhole(bs, chunks) && i < |chunks|
    requires Aligned(bs, |Flat(chunks[..i])|) && out == Decrypt(d, bs, iv0, Flat(chunks[..i]))
    ensures var iv := NextIv(bs, iv0, Flat(chunks[..i]));
            && Aligned(bs, |Flat(chunks[..i + 1])|)
            && out + Decrypt(d, bs, iv, chunks[i]) == Decrypt(d, bs, iv0, Flat(chunks[..i + 1]))
            && NextIv(bs, iv, chunks[i]) == NextIv(bs, iv0, Flat(chunks[..i + 1]))
  {
    hide IsCipher, Decrypt, NextIv, Flat, Aligned;
    Positive(d, bs);
    FlatMore(chunks, i);
    AlignedSum(bs, |Flat(chunks[..i])|, |chunks[i]|);
    DecryptConcat(d, bs, iv0, Flat(chunks[..i]), chunks[i]);
    NextIvConcat(bs, iv0, Flat(chunks[..i]), chunks[i]);
  }

  lemma NothingYet(e: Cipher, bs: nat, iv: Bytes)
    requires IsCipher(e, bs) && |iv| == bs
    ensures Encrypt(e, bs, iv, []) == [] && Decrypt(e, bs, iv, []) == [] && NextIv(bs, iv, []) == iv && Aligned(bs, 0)
  {
  }

  /** crypto_cbc_encrypt: whatever chunks the walk hands out, in place or not, the result is one
      pass over all the data. */
  method EncryptAll(e: Cipher, bs: nat, chunks: seq<Bytes>, inPlace: seq<bool>, iv: array<bv8>) returns (out: Bytes)
    requires IsCipher(e, bs) && iv.Length == bs && AllWhole(bs, chunks) && |inPlace| == |chunks|
    modifies iv
    ensures out == Encrypt(e, bs, old(iv[..]), Flat(chunks)) && iv[..] == NextIv(bs, old(iv[..]), out)
  {
    hide IsCipher, Encrypt, NextIv, Flat, Aligned;
    Positive(e, bs);
    ghost var iv0 := iv[..];
    out := [];
    NothingYet(e, bs, iv0);
    AllOf(chunks);
    var i := 0;
    while i < |chunks|
      invariant i <= |chunks| && Aligned(bs, |Flat(chunks[..i])|)
      invariant out == Encrypt(e, bs, iv0, Flat(chunks[..i])) && iv[..] == NextIv(bs, iv0, out)
    {
      ChunkEncrypted(e, bs, iv0, chunks, i, out);
      var c := EncryptChunk(e, bs, chunks[i], inPlace[i], iv);
      out := out + c;
      i := i + 1;
    }
  }

  /** crypto_cbc_decrypt */
  method DecryptAll(d: Cipher, bs: nat, chunks: seq<Bytes>, inPlace: seq<bool>, iv: array<bv8>) returns (out: Bytes)
    requires IsCipher(d, bs) && iv.Length == bs && AllWhole(bs, chunks) && |inPlace| == |chunks|
    modifies iv
    ensures out == Decrypt(d, bs, old(iv[..]), Flat(chunks)) && iv[..] == NextIv(bs, old(iv[..]), Flat(chunks))
  {
    hide IsCipher, Decrypt, NextIv, Flat, Aligned;
    Positive(d, bs);
    ghost var iv0 := iv[..];
    out := [];
    NothingYet(d, bs, iv0);
    AllOf(chunks);
    var i := 0;
    while i < |chunks|
      invariant i <= |chunks| && Aligned(bs, |Flat(chunks[..i])|)
      invariant out == Decrypt(d, bs, iv0, Flat(chunks[..i])) && iv[..] == NextIv(bs, iv0, Flat(chunks[..i]))
    {
      ChunkDecrypted(d, bs, iv0, chunks, i, out);
      var p := DecryptChunk(d, bs, chunks[i], inPlace[i], iv);
      out := out + p;
      i := i + 1;
    }
  }
}
