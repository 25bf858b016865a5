/** Camellia as RFC 3713 writes it, on 64-bit values, and that the cipher on words is the same. */
module CamelliaRfc {
  import opened CamelliaWords
  import opened CamelliaBytes
  import opened CamelliaNetwork
  import opened Camellia
  import CamelliaCode

  type Long = bv64

  // ---------------------------------------------------------------------------
  // RFC 3713, section 2.4
  // ---------------------------------------------------------------------------

  /** x >> 32 and x & MASK32 */
  function High(x: Long): Word { (x >> 32) as Word }
  function Low(x: Long): Word { (x & 0xffff_ffff) as Word }

  function Both(x1: Word, x2: Word): Long { (x1 as Long << 32) | x2 as Long }

  /** <<< 1 */
  function Rotated(x: Word): Word { x.RotateLeft(1) }

  /** Section 2.4.2 */
  function RfcFL(x: Long, ke: Long): Long {
    var x2 := X(Low(x), Rotated(And(High(x), High(ke))));
    var x1 := X(High(x), Or(x2, Low(ke)));
    Both(x1, x2)
  }

  /** Section 2.4.3 */
  function RfcFLInv(y: Long, ke: Long): Long {
    var y1 := X(High(y), Or(Low(y), Low(ke)));
    var y2 := X(Low(y), Rotated(And(y1, High(ke))));
    Both(y1, y2)
  }

  /** The n-th byte of the eight, from the most significant. */
  function ByteAt(x: Long, shift: bv6): bv8 { ((x >> shift) & 0xff) as bv8 }

  function Bytes8(y1: bv8, y2: bv8, y3: bv8, y4: bv8, y5: bv8, y6: bv8, y7: bv8, y8: bv8): Long {
    (y1 as Long << 56) | (y2 as Long << 48) | (y3 as Long << 40) | (y4 as Long << 32)
    | (y5 as Long << 24) | (y6 as Long << 16) | (y7 as Long << 8) | y8 as Long
  }

  /** Section 2.4.1, after the key is added. */
  function RfcF(sb: SBoxes, x: Long): Long {
    var t1, t2, t3, t4 := sb.s1(ByteAt(x, 56)), sb.s2(ByteAt(x, 48)), sb.s3(ByteAt(x, 40)), sb.s4(ByteAt(x, 32));
    var t5, t6, t7, t8 := sb.s2(ByteAt(x, 24)), sb.s3(ByteAt(x, 16)), sb.s4(ByteAt(x, 8)), sb.s1(ByteAt(x, 0));
    Bytes8(S6(t1, t3, t4, t6, t7, t8), S6(t1, t2, t4, t5, t7, t8), S6(t1, t2, t3, t5, t6, t8), S6(t2, t3, t4, t5, t6, t7),
           S5(t1, t2, t6, t7, t8), S5(t2, t3, t5, t7, t8), S5(t3, t4, t5, t6, t8), S5(t1, t4, t5, t6, t7))
  }

  function Xor64(a: Long, b: Long): Long { a ^ b }

  // ---------------------------------------------------------------------------
  // Two words are one 64-bit value
  // ---------------------------------------------------------------------------

  function Join(x: Half): Long { Both(x.l, x.r) }

  lemma JoinParts(x: Half)
    ensures High(Join(x)) == x.l && Low(Join(x)) == x.r
  {
    HighOf(x.l, x.r);
    LowOf(x.l, x.r);
  }

  lemma HighOf(a: Word, b: Word)
    ensures High(Both(a, b)) == a
  {
  }

  lemma LowOf(a: Word, b: Word)
    ensures Low(Both(a, b)) == b
  {
  }

  lemma JoinXor(a: Half, b: Half)
    ensures Join(Xor(a, b)) == Xor64(Join(a), Join(b))
  {
    BothXor(a.l, a.r, b.l, b.r);
  }

  lemma BothXor(a: Word, b: Word, c: Word, d: Word)
    ensures Both(X(a, c), X(b, d)) == Xor64(Both(a, b), Both(c, d))
  {
  }

  lemma RotateIsRol(a: Word)
    ensures Rotated(a) == Rol1(a)
  {
  }

  lemma JoinFL(x: Half, k: Half)
    ensures Join(FL(x, k)) == RfcFL(Join(x), Join(k))
    ensures Join(FLInv(x, k)) == RfcFLInv(Join(x), Join(k))
  {
    hide Rol1, Rotated, High, Low, Both, X, And, Or;
    JoinParts(x);
    JoinParts(k);
    RotateIsRol(And(x.l, k.l));
    RotateIsRol(And(FLInv(x, k).l, k.l));
  }

  lemma JoinBytes(x: Half)
    ensures ByteAt(Join(x), 56) == Byte0(x.l) && ByteAt(Join(x), 48) == Byte1(x.l)
    ensures ByteAt(Join(x), 40) == Byte2(x.l) && ByteAt(Join(x), 32) == Byte3(x.l)
    ensures ByteAt(Join(x), 24) == Byte0(x.r) && ByteAt(Join(x), 16) == Byte1(x.r)
    ensures ByteAt(Join(x), 8) == Byte2(x.r) && ByteAt(Join(x), 0) == Byte3(x.r)
  {
    HighBytes(x.l, x.r);
    LowBytes(x.l, x.r);
  }

  lemma HighBytes(a: Word, b: Word)
    ensures ByteAt(Both(a, b), 56) == Byte0(a) && ByteAt(Both(a, b), 48) == Byte1(a)
    ensures ByteAt(Both(a, b), 40) == Byte2(a) && ByteAt(Both(a, b), 32) == Byte3(a)
  {
  }

  lemma LowBytes(a: Word, b: Word)
    ensures ByteAt(Both(a, b), 24) == Byte0(b) && ByteAt(Both(a, b), 16) == Byte1(b)
    ensures ByteAt(Both(a, b), 8) == Byte2(b) && ByteAt(Both(a, b), 0) == Byte3(b)
  {
  }

  lemma JoinWords(y1: bv8, y2: bv8, y3: bv8, y4: bv8, y5: bv8, y6: bv8, y7: bv8, y8: bv8)
    ensures Join(Half(Word4(y1, y2, y3, y4), Word4(y5, y6, y7, y8))) == Bytes8(y1, y2, y3, y4, y5, y6, y7, y8)
  {
  }

  lemma JoinSubst(sb: SBoxes, x: Half)
    ensures Join(SubstPermute(sb, x)) == RfcF(sb, Join(x))
  {
    hide Byte0, Byte1, Byte2, Byte3, ByteAt, Join, Word4, Bytes8, S5, S6;
    JoinBytes(x);
    var t1, t2, t3, t4 := sb.s1(Byte0(x.l)), sb.s2(Byte1(x.l)), sb.s3(Byte2(x.l)), sb.s4(Byte3(x.l));
    var t5, t6, t7, t8 := sb.s2(Byte0(x.r)), sb.s3(Byte1(x.r)), sb.s4(Byte2(x.r)), sb.s1(Byte3(x.r));
    JoinWords(S6(t1, t3, t4, t6, t7, t8), S6(t1, t2, t4, t5, t7, t8), S6(t1, t2, t3, t5, t6, t8), S6(t2, t3, t4, t5, t6, t7),
              S5(t1, t2, t6, t7, t8), S5(t2, t3, t5, t7, t8), S5(t3, t4, t5, t6, t8), S5(t1, t4, t5, t6, t7));
  }

  // ---------------------------------------------------------------------------
  // The whole cipher
  // ---------------------------------------------------------------------------

  /** The operations of the RFC; the cipher uses the first two and FL and FLINV. */
  function RfcOps(sb: SBoxes): Ops<Long> {
    Ops((a, b) => Xor64(a, b), x => RfcF(sb, x), (x, k) => x, (x, k) => RfcFL(x, k), (x, k) => RfcFLInv(x, k), (v, k) => v, k => k)
  }

  function JoinBlock(d: Block<Half>): Block<Long> {
    Block(Join(d.d1), Join(d.d2))
  }

  function JoinAll(sub: seq<Half>): (r: seq<Long>)
    ensures |r| == |sub| && forall i | 0 <= i < |sub| :: r[i] == Join(sub[i])
  {
    seq(|sub|, i requires 0 <= i < |sub| => Join(sub[i]))
  }

  lemma JoinRounds(sb: SBoxes, d: Block<Half>, k: Half, k': Half)
    ensures JoinBlock(TwoRounds(WordOps(sb), d, k, k')) == TwoRounds(RfcOps(sb), JoinBlock(d), Join(k), Join(k'))
  {
    hide Join, Xor, Xor64, SubstPermute, RfcF;
    var x := Xor(d.d1, k);
    JoinXor(d.d1, k);
    JoinSubst(sb, x);
    JoinXor(d.d2, SubstPermute(sb, x));
    var d2 := Xor(d.d2, SubstPermute(sb, x));
    JoinXor(d2, k');
    JoinSubst(sb, Xor(d2, k'));
    JoinXor(d.d1, SubstPermute(sb, Xor(d2, k')));
  }

  lemma JoinSix(sb: SBoxes, sub: seq<Half>, d: Block<Half>, b: nat)
    requires b + 5 < |sub|
    ensures JoinBlock(SixRounds(WordOps(sb), sub, d, b)) == SixRounds(RfcOps(sb), JoinAll(sub), JoinBlock(d), b)
  {
    hide Join, JoinBlock, WordOps, RfcOps, TwoRounds;
    var d1 := TwoRounds(WordOps(sb), d, sub[b], sub[b+1]);
    var d2 := TwoRounds(WordOps(sb), d1, sub[b+2], sub[b+3]);
    JoinRounds(sb, d, sub[b], sub[b+1]);
    JoinRounds(sb, d1, sub[b+2], sub[b+3]);
    JoinRounds(sb, d2, sub[b+4], sub[b+5]);
  }

  lemma JoinLayer(sb: SBoxes, d: Block<Half>, k: Half, k': Half)
    ensures JoinBlock(FLLayer(WordOps(sb), d, k, k')) == FLLayer(RfcOps(sb), JoinBlock(d), Join(k), Join(k'))
  {
    hide Join, FL, FLInv, RfcFL, RfcFLInv;
    JoinFL(d.d1, k);
    JoinFL(d.d2, k');
  }

  lemma {:induction false} JoinGroups(sb: SBoxes, sub: seq<Half>, d: Block<Half>, g: nat)
    requires 8 * g <= |sub|
    ensures JoinBlock(Groups(WordOps(sb), sub, d, g)) == Groups(RfcOps(sb), JoinAll(sub), JoinBlock(d), g)
    decreases g
  {
    hide Join, JoinBlock, WordOps, RfcOps, SixRounds, FLLayer;
    if g == 1 {
      JoinSix(sb, sub, d, 2);
    } else if g > 1 {
      var b := 8 * (g - 1);
      JoinGroups(sb, sub, d, g - 1);
      var e := Groups(WordOps(sb), sub, d, g - 1);
      JoinLayer(sb, e, sub[b], sub[b+1]);
      JoinSix(sb, sub, FLLayer(WordOps(sb), e, sub[b], sub[b+1]), b + 2);
    }
  }

  lemma JoinCipher(sb: SBoxes, sub: seq<Half>, max: nat, p: Block<Half>)
    requires IsSubkeys(sub, max)
    ensures JoinBlock(RfcCipher(WordOps(sb), sub, max, p)) == RfcCipher(RfcOps(sb), JoinAll(sub), max, JoinBlock(p))
  {
    hide Join, Groups, Xor, Xor64;
    JoinXor(p.d1, sub[0]);
    JoinXor(p.d2, sub[1]);
    var q := Block(Xor(p.d1, sub[0]), Xor(p.d2, sub[1]));
    JoinGroups(sb, sub, q, max / 8);
    var d := Groups(WordOps(sb), sub, q, max / 8);
    JoinXor(d.d2, sub[max]);
    JoinXor(d.d1, sub[max + 1]);
  }

  /** For every raw subkey set and all S-boxes, encryption with the source's table is the cipher that
      RFC 3713 writes on 64-bit values. */
  lemma EncryptIsRfc3713(sb: SBoxes, sub: seq<Half>, max: nat, table: seq<Half>, p: Block<Half>)
    requires IsSubkeys(sub, max) && IsTableOf(WordOps(sb), table, sub, max)
    ensures JoinBlock(TableEncrypt(WordOps(sb), table, max, p)) == RfcCipher(RfcOps(sb), JoinAll(sub), max, JoinBlock(p))
  {
    hide WordOps, RfcOps, JoinBlock;
    EncryptIsRfcOnWords(sb, sub, max, table, p);
    JoinCipher(sb, sub, max, p);
  }

  /** camellia_encrypt, with its half swap */
  method EncryptBlock(sb: SBoxes, table: array<Half>, max: nat, p: Block<Half>) returns (c: Block<Half>)
    requires IsTable(table[..], max)
    ensures c == TableEncrypt(WordOps(sb), table[..], max, p)
  {
    hide WordOps, TableEncrypt;
    var io := new Half[2] [p.d1, p.d2];
    CamelliaCode.DoEncrypt(WordOps(sb), table, io, max);
    c := Block(io[1], io[0]);
  }

  /** camellia_decrypt, with its half swap */
  method DecryptBlock(sb: SBoxes, table: array<Half>, max: nat, c: Block<Half>) returns (p: Block<Half>)
    requires IsTable(table[..], max)
    ensures p == TableDecrypt(WordOps(sb), table[..], max, c)
  {
    hide WordOps, TableDecrypt;
    var io := new Half[2] [c.d1, c.d2];
    CamelliaCode.DoDecrypt(WordOps(sb), table, io, max);
    p := Block(io[1], io[0]);
  }

  /** From raw subkeys to ciphertext and back: the source's setup, encryption and decryption
      with the half swaps of camellia_encrypt and camellia_decrypt. */
  method EncryptAndDecrypt(sb: SBoxes, sub: array<Half>, max: nat, p: Block<Half>)
    returns (c: Block<Half>, p': Block<Half>)
    requires IsSubkeys(sub[..], max)
    modifies sub
    ensures JoinBlock(c) == RfcCipher(RfcOps(sb), JoinAll(old(sub[..])), max, JoinBlock(p))
    ensures p' == p
  {
    hide WordOps, RfcOps, JoinBlock, RfcCipher, TableEncrypt, TableDecrypt, Lawful, Entry;
    WordOpsLawful(sb);
    ghost var raw := sub[..];
    var table := new Half[34](_ => Half(0, 0));
    CamelliaCode.SetupTail(WordOps(sb), table, sub, max);
    EncryptIsRfc3713(sb, raw, max, table[..], p);
    DecryptInvertsEncrypt(sb, table[..], max, p);
    c := EncryptBlock(sb, table, max, p);
    p' := DecryptBlock(sb, table, max, c);
  }
}
