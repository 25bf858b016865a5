/** 32-bit word operations of the Camellia source, and the laws the network proofs use. */
module CamelliaWords {

  type Word = bv32

  // Each operation has a name of its own so that proofs use its laws, not its bits.

  function X(a: Word, b: Word): Word { a ^ b }

  function Or(a: Word, k: Word): Word { a | k }

  function AndNot(a: Word, k: Word): Word { a & !k }

  function And(a: Word, k: Word): Word { a & k }

  function Rol1(a: Word): Word { (a << 1) | (a >> 31) }

  function RolAnd(a: Word, k: Word): Word { Rol1(And(a, k)) }

  function Rol8(a: Word): Word { (a << 8) | (a >> 24) }

  function Ror8(a: Word): Word { (a >> 8) | (a << 24) }

  lemma XComm(a: Word, b: Word)
    ensures X(a, b) == X(b, a)
  {
  }

  lemma XAssoc(a: Word, b: Word, c: Word)
    ensures X(a, X(b, c)) == X(X(a, b), c)
  {
    assert a ^ (b ^ c) == (a ^ b) ^ c;
  }

  lemma XSelf(a: Word, b: Word)
    ensures X(X(a, b), b) == a
  {
  }

  lemma XSwapMiddle(a: Word, b: Word, c: Word, d: Word)
    ensures X(X(a, b), X(c, d)) == X(X(a, c), X(b, d))
  {
    XAssoc(a, b, X(c, d));
    XAssoc(b, c, d);
    XComm(b, c);
    XAssoc(c, b, d);
    XAssoc(a, c, X(b, d));
  }

  lemma AndXor(a: Word, b: Word, k: Word)
    ensures And(X(a, b), k) == X(And(a, k), And(b, k))
  {
    calc {
      And(X(a, b), k);
      (a ^ b) & k;
      (a & k) ^ (b & k);
      X(And(a, k), And(b, k));
    }
  }

  lemma Rol1Xor(a: Word, b: Word)
    ensures Rol1(X(a, b)) == X(Rol1(a), Rol1(b))
  {
    assert ((a ^ b) << 1) | ((a ^ b) >> 31) == ((a << 1) | (a >> 31)) ^ ((b << 1) | (b >> 31));
  }

  lemma RolAndXor(a: Word, b: Word, k: Word)
    ensures RolAnd(X(a, b), k) == X(RolAnd(a, k), RolAnd(b, k))
  {
    AndXor(a, b, k);
    Rol1Xor(And(a, k), And(b, k));
  }

  lemma AndNotXor(a: Word, b: Word, k: Word)
    ensures AndNot(X(a, b), k) == X(AndNot(a, k), AndNot(b, k))
  {
    assert (a ^ b) & !k == (a & !k) ^ (b & !k);
  }

  lemma OrXor(a: Word, b: Word, k: Word)
    ensures Or(X(a, b), k) == X(Or(a, k), AndNot(b, k))
  {
    assert (a ^ b) | k == (a | k) ^ (b & !k);
  }

  lemma Ror8Xor(a: Word, b: Word)
    ensures Ror8(X(a, b)) == X(Ror8(a), Ror8(b))
  {
  }

  lemma Ror8Rol8(a: Word)
    ensures Ror8(Rol8(a)) == a
  {
  }
}

/** Bytes of a word, most significant first, and the lookup tables of the source. */
module CamelliaBytes {
  import opened CamelliaWords

  function Byte0(x: Word): bv8 { (x >> 24) as bv8 }
  function Byte1(x: Word): bv8 { ((x >> 16) & 0xff) as bv8 }
  function Byte2(x: Word): bv8 { ((x >> 8) & 0xff) as bv8 }
  function Byte3(x: Word): bv8 { (x & 0xff) as bv8 }

  function S3(a: bv8, b: bv8, c: bv8): bv8 { a ^ b ^ c }
  function S5(a: bv8, b: bv8, c: bv8, d: bv8, e: bv8): bv8 { a ^ b ^ c ^ d ^ e }
  function S6(a: bv8, b: bv8, c: bv8, d: bv8, e: bv8, f: bv8): bv8 { a ^ b ^ c ^ d ^ e ^ f }

  function Word4(b0: bv8, b1: bv8, b2: bv8, b3: bv8): Word {
    (b0 as Word << 24) | (b1 as Word << 16) | (b2 as Word << 8) | b3 as Word
  }

  lemma Word4Xor(a0: bv8, a1: bv8, a2: bv8, a3: bv8, b0: bv8, b1: bv8, b2: bv8, b3: bv8)
    ensures X(Word4(a0, a1, a2, a3), Word4(b0, b1, b2, b3)) == Word4(a0 ^ b0, a1 ^ b1, a2 ^ b2, a3 ^ b3)
  {
  }

  lemma Ror8Word4(a0: bv8, a1: bv8, a2: bv8, a3: bv8)
    ensures Ror8(Word4(a0, a1, a2, a3)) == Word4(a3, a0, a1, a2)
  {
  }

  lemma Word4Sum(a0: bv8, a1: bv8, a2: bv8, a3: bv8, b0: bv8, b1: bv8, b2: bv8, b3: bv8, c0: bv8, c1: bv8, c2: bv8, c3: bv8)
    requires a0 ^ b0 == c0 && a1 ^ b1 == c1 && a2 ^ b2 == c2 && a3 ^ b3 == c3
    ensures X(Word4(a0, a1, a2, a3), Word4(b0, b1, b2, b3)) == Word4(c0, c1, c2, c3)
  {
    Word4Xor(a0, a1, a2, a3, b0, b1, b2, b3);
  }

  /** The exclusive or of one entry each of camellia_sp1110, camellia_sp0222, camellia_sp3033
      and camellia_sp4404; the digits say in which bytes an entry holds its S-box value. */
  function Lookup(s1: bv8, s2: bv8, s3: bv8, s4: bv8): Word {
    (((s1 as Word << 24) | (s1 as Word << 16) | (s1 as Word << 8))
     ^ ((s2 as Word << 16) | (s2 as Word << 8) | s2 as Word))
    ^ ((s3 as Word << 24) | (s3 as Word << 8) | s3 as Word)
    ^ ((s4 as Word << 24) | (s4 as Word << 16) | s4 as Word)
  }

  lemma LookupBits(s1: bv8, s2: bv8, s3: bv8, s4: bv8)
    ensures Lookup(s1, s2, s3, s4) == Word4(s1 ^ s3 ^ s4, s1 ^ s2 ^ s4, s1 ^ s2 ^ s3, s2 ^ s3 ^ s4)
  {
  }

  lemma LookupBytes(s1: bv8, s2: bv8, s3: bv8, s4: bv8)
    ensures Lookup(s1, s2, s3, s4) == Word4(S3(s1, s3, s4), S3(s1, s2, s4), S3(s1, s2, s3), S3(s2, s3, s4))
  {
    calc {
      Lookup(s1, s2, s3, s4);
      { LookupBits(s1, s2, s3, s4); }
      Word4(s1 ^ s3 ^ s4, s1 ^ s2 ^ s4, s1 ^ s2 ^ s3, s2 ^ s3 ^ s4);
      Word4(S3(s1, s3, s4), S3(s1, s2, s4), S3(s1, s2, s3), S3(s2, s3, s4));
    }
  }

  lemma SumLeft(a: bv8, b: bv8, c: bv8, d: bv8, e: bv8, f: bv8)
    ensures S3(a, b, c) ^ S3(f, d, e) == S6(a, b, c, d, e, f)
    ensures S3(a, b, c) ^ S3(d, e, f) == S6(a, b, c, d, e, f)
  {
    assert (a ^ b ^ c) ^ (f ^ d ^ e) == a ^ b ^ c ^ d ^ e ^ f;
    assert (a ^ b ^ c) ^ (d ^ e ^ f) == a ^ b ^ c ^ d ^ e ^ f;
  }

  lemma SumRightFirst(a: bv8, b: bv8, c: bv8, d: bv8, e: bv8, f: bv8, p: bv8)
    ensures S3(p, b, c) ^ S6(a, b, c, d, e, f) == S5(a, p, d, e, f)
  {
    assert (p ^ b ^ c) ^ (a ^ b ^ c ^ d ^ e ^ f) == a ^ p ^ d ^ e ^ f;
  }

  lemma SumRightSecond(a: bv8, b: bv8, c: bv8, d: bv8, e: bv8, f: bv8, p: bv8)
    ensures S3(a, p, c) ^ S6(a, b, c, d, e, f) == S5(b, p, d, e, f)
  {
    assert (a ^ p ^ c) ^ (a ^ b ^ c ^ d ^ e ^ f) == b ^ p ^ d ^ e ^ f;
  }

  lemma SumRightThird(a: bv8, b: bv8, c: bv8, d: bv8, e: bv8, f: bv8, p: bv8)
    ensures S3(a, b, p) ^ S6(a, b, c, d, e, f) == S5(c, p, d, e, f)
  {
    assert (a ^ b ^ p) ^ (a ^ b ^ c ^ d ^ e ^ f) == c ^ p ^ d ^ e ^ f;
  }

  lemma SumRightFourth(a: bv8, b: bv8, c: bv8, d: bv8, e: bv8, f: bv8, p: bv8)
    ensures S3(p, a, b) ^ S6(a, b, c, d, e, f) == S5(p, c, d, e, f)
  {
    assert (p ^ a ^ b) ^ (a ^ b ^ c ^ d ^ e ^ f) == p ^ c ^ d ^ e ^ f;
  }
}

/** Camellia on 32-bit words. */
module Camellia {
  import opened CamelliaWords
  import opened CamelliaBytes
  import opened CamelliaNetwork

  /** 64 bits as the source keeps them: `l` holds the most significant word. */
  datatype Half = Half(l: Word, r: Word)

  /** The four substitution tables of RFC 3713, section 2.4.1. */
  datatype SBoxes = SBoxes(s1: bv8 -> bv8, s2: bv8 -> bv8, s3: bv8 -> bv8, s4: bv8 -> bv8)

  function Xor(a: Half, b: Half): Half {
    Half(X(a.l, b.l), X(a.r, b.r))
  }

  /** FL of RFC 3713, section 2.4.2, as CAMELLIA_FLS computes it on the left half. */
  function FL(x: Half, k: Half): Half {
    var r := X(x.r, RolAnd(x.l, k.l));
    Half(X(x.l, Or(r, k.r)), r)
  }

  /** FLINV of RFC 3713, section 2.4.3, as CAMELLIA_FLS computes it on the right half. */
  function FLInv(y: Half, k: Half): Half {
    var l := X(y.l, Or(y.r, k.r));
    Half(l, X(y.r, RolAnd(l, k.l)))
  }

  /** How camellia_setup_tail carries a key across an FL or FLINV layer with the key k. */
  function Absorb(v: Half, k: Half): Half {
    var l := X(v.l, AndNot(v.r, k.r));
    Half(l, X(v.r, RolAnd(l, k.l)))
  }

  /** One statement pair of the last loop of camellia_setup_tail. */
  function Unspread(k: Half): Half {
    var dw := Rol8(X(k.l, k.r));
    Half(dw, X(k.l, dw))
  }

  /** The F-function of RFC 3713, section 2.4.1, without its key: the S-boxes and then P. */
  function SubstPermute(sb: SBoxes, x: Half): Half {
    Permute(sb.s1(Byte0(x.l)), sb.s2(Byte1(x.l)), sb.s3(Byte2(x.l)), sb.s4(Byte3(x.l)),
            sb.s2(Byte0(x.r)), sb.s3(Byte1(x.r)), sb.s4(Byte2(x.r)), sb.s1(Byte3(x.r)))
  }

  function Permute(t1: bv8, t2: bv8, t3: bv8, t4: bv8, t5: bv8, t6: bv8, t7: bv8, t8: bv8): Half {
    Half(Word4(S6(t1, t3, t4, t6, t7, t8),
               S6(t1, t2, t4, t5, t7, t8),
               S6(t1, t2, t3, t5, t6, t8),
               S6(t2, t3, t4, t5, t6, t7)),
         Word4(S5(t1, t2, t6, t7, t8),
               S5(t2, t3, t5, t7, t8),
               S5(t3, t4, t5, t6, t8),
               S5(t1, t4, t5, t6, t7)))
  }

  /** What CAMELLIA_ROUNDSM xors into its output half. */
  function RoundMask(sb: SBoxes, x: Half, k: Half): Half {
    KeyedMask(Lookup(sb.s1(Byte0(x.l)), sb.s2(Byte1(x.l)), sb.s3(Byte2(x.l)), sb.s4(Byte3(x.l))),
              Lookup(sb.s1(Byte3(x.r)), sb.s2(Byte0(x.r)), sb.s3(Byte1(x.r)), sb.s4(Byte2(x.r))), k)
  }

  function KeyedMask(il: Word, ir: Word, k: Half): Half {
    var il' := X(il, k.l);
    var ir' := X(ir, X(il', k.r));
    Half(ir', X(Ror8(il'), ir'))
  }

  function WordOps(sb: SBoxes): Ops<Half> {
    Ops((a, b) => Xor(a, b), x => SubstPermute(sb, x), (x, k) => RoundMask(sb, x, k),
        (x, k) => FL(x, k), (x, k) => FLInv(x, k), (v, k) => Absorb(v, k), k => Unspread(k))
  }

  // ---------------------------------------------------------------------------
  // The laws hold for the source's words
  // ---------------------------------------------------------------------------

  lemma XorLaws(a: Half, b: Half, c: Half)
    ensures Xor(Xor(a, b), b) == a
    ensures Xor(a, b) == Xor(b, a)
    ensures Xor(a, Xor(b, c)) == Xor(Xor(a, b), c)
  {
    XSelf(a.l, b.l);
    XSelf(a.r, b.r);
    XComm(a.l, b.l);
    XComm(a.r, b.r);
    XAssoc(a.l, b.l, c.l);
    XAssoc(a.r, b.r, c.r);
  }

  /** FL and FLINV undo each other. */
  lemma FLInverts(x: Half, k: Half)
    ensures FLInv(FL(x, k), k) == x
    ensures FL(FLInv(x, k), k) == x
  {
    XSelf(x.l, Or(FL(x, k).r, k.r));
    XSelf(x.r, RolAnd(x.l, k.l));
    XSelf(x.l, Or(x.r, k.r));
    XSelf(x.r, RolAnd(FLInv(x, k).l, k.l));
  }

  lemma AbsorbLinear(x: Half, v: Half, k: Half)
    ensures Absorb(Xor(x, v), k) == Xor(Absorb(x, k), Absorb(v, k))
  {
    AndNotXor(x.r, v.r, k.r);
    XSwapMiddle(x.l, v.l, AndNot(x.r, k.r), AndNot(v.r, k.r));
    var l := X(x.l, AndNot(x.r, k.r));
    var l' := X(v.l, AndNot(v.r, k.r));
    RolAndXor(l, l', k.l);
    XSwapMiddle(x.r, v.r, RolAnd(l, k.l), RolAnd(l', k.l));
  }

  /** A key difference crosses FLINV as Absorb says. */
  lemma FLInvIsAffine(x: Half, v: Half, k: Half)
    ensures FLInv(Xor(x, v), k) == Xor(FLInv(x, k), Absorb(v, k))
  {
    OrXor(x.r, v.r, k.r);
    XSwapMiddle(x.l, v.l, Or(x.r, k.r), AndNot(v.r, k.r));
    var l := X(x.l, Or(x.r, k.r));
    var l' := X(v.l, AndNot(v.r, k.r));
    RolAndXor(l, l', k.l);
    XSwapMiddle(x.r, v.r, RolAnd(l, k.l), RolAnd(l', k.l));
  }

  /** The round macro applies the last half of P to its key. */
  lemma KeyedMaskUnspread(il: Word, ir: Word, k: Half)
    ensures KeyedMask(il, ir, Unspread(k)) == Xor(Half(X(il, ir), X(Ror8(il), X(il, ir))), k)
  {
    var dw := Rol8(X(k.l, k.r));
    calc {
      X(ir, X(X(il, dw), X(k.l, dw)));
      { XSwapMiddle(il, dw, k.l, dw); XComm(dw, dw); }
      X(ir, X(X(il, k.l), X(dw, dw)));
      { XAssoc(X(il, k.l), dw, dw); XSelf(X(il, k.l), dw); }
      X(ir, X(il, k.l));
      { XAssoc(ir, il, k.l); XComm(ir, il); }
      X(X(il, ir), k.l);
    }
    calc {
      X(Ror8(X(il, dw)), X(X(il, ir), k.l));
      { Ror8Xor(il, dw); Ror8Rol8(X(k.l, k.r)); }
      X(X(Ror8(il), X(k.l, k.r)), X(X(il, ir), k.l));
      { XSwapMiddle(Ror8(il), X(k.l, k.r), X(il, ir), k.l); }
      X(X(Ror8(il), X(il, ir)), X(X(k.l, k.r), k.l));
      { XComm(k.l, k.r); XSelf(k.r, k.l); }
      X(X(Ror8(il), X(il, ir)), k.r);
    }
  }

  lemma PermuteSums(t1: bv8, t2: bv8, t3: bv8, t4: bv8, t5: bv8, t6: bv8, t7: bv8, t8: bv8)
    ensures S3(t1, t3, t4) ^ S3(t8, t6, t7) == S6(t1, t3, t4, t6, t7, t8)
    ensures S3(t1, t2, t4) ^ S3(t8, t5, t7) == S6(t1, t2, t4, t5, t7, t8)
    ensures S3(t1, t2, t3) ^ S3(t8, t5, t6) == S6(t1, t2, t3, t5, t6, t8)
    ensures S3(t2, t3, t4) ^ S3(t5, t6, t7) == S6(t2, t3, t4, t5, t6, t7)
    ensures S3(t2, t3, t4) ^ S6(t1, t3, t4, t6, t7, t8) == S5(t1, t2, t6, t7, t8)
    ensures S3(t1, t3, t4) ^ S6(t1, t2, t4, t5, t7, t8) == S5(t2, t3, t5, t7, t8)
    ensures S3(t1, t2, t4) ^ S6(t1, t2, t3, t5, t6, t8) == S5(t3, t4, t5, t6, t8)
    ensures S3(t1, t2, t3) ^ S6(t2, t3, t4, t5, t6, t7) == S5(t1, t4, t5, t6, t7)
  {
    SumLeft(t1, t3, t4, t6, t7, t8);
    SumLeft(t1, t2, t4, t5, t7, t8);
    SumLeft(t1, t2, t3, t5, t6, t8);
    SumLeft(t2, t3, t4, t5, t6, t7);
    SumRightFirst(t1, t3, t4, t6, t7, t8, t2);
    SumRightSecond(t1, t2, t4, t5, t7, t8, t3);
    SumRightThird(t1, t2, t3, t5, t6, t8, t4);
    SumRightFourth(t2, t3, t4, t5, t6, t7, t1);
  }

  /** The two exclusive ors and the rotation at the end of the round macro, byte by byte. */
  lemma MixWords(il: Word, ir: Word,
                 a0: bv8, a1: bv8, a2: bv8, a3: bv8, b0: bv8, b1: bv8, b2: bv8, b3: bv8,
                 y1: bv8, y2: bv8, y3: bv8, y4: bv8, y5: bv8, y6: bv8, y7: bv8, y8: bv8)
    requires il == Word4(a0, a1, a2, a3) && ir == Word4(b0, b1, b2, b3)
    requires a0 ^ b0 == y1 && a1 ^ b1 == y2 && a2 ^ b2 == y3 && a3 ^ b3 == y4
    requires a3 ^ y1 == y5 && a0 ^ y2 == y6 && a1 ^ y3 == y7 && a2 ^ y4 == y8
    ensures X(il, ir) == Word4(y1, y2, y3, y4)
    ensures X(Ror8(il), X(il, ir)) == Word4(y5, y6, y7, y8)
  {
    Word4Sum(a0, a1, a2, a3, b0, b1, b2, b3, y1, y2, y3, y4);
    Ror8Word4(a0, a1, a2, a3);
    Word4Sum(a3, a0, a1, a2, y1, y2, y3, y4, y5, y6, y7, y8);
  }

  /** The four tables and the rotation compute the P-function of RFC 3713. */
  lemma LookupPermutes(t1: bv8, t2: bv8, t3: bv8, t4: bv8, t5: bv8, t6: bv8, t7: bv8, t8: bv8)
    ensures var il := Lookup(t1, t2, t3, t4);
            var ir := Lookup(t8, t5, t6, t7);
            Half(X(il, ir), X(Ror8(il), X(il, ir))) == Permute(t1, t2, t3, t4, t5, t6, t7, t8)
  {
    PermuteSums(t1, t2, t3, t4, t5, t6, t7, t8);
    LookupBytes(t1, t2, t3, t4);
    LookupBytes(t8, t5, t6, t7);
    MixWords(Lookup(t1, t2, t3, t4), Lookup(t8, t5, t6, t7),
             S3(t1, t3, t4), S3(t1, t2, t4), S3(t1, t2, t3), S3(t2, t3, t4),
             S3(t8, t6, t7), S3(t8, t5, t7), S3(t8, t5, t6), S3(t5, t6, t7),
             S6(t1, t3, t4, t6, t7, t8), S6(t1, t2, t4, t5, t7, t8),
             S6(t1, t2, t3, t5, t6, t8), S6(t2, t3, t4, t5, t6, t7),
             S5(t1, t2, t6, t7, t8), S5(t2, t3, t5, t7, t8),
             S5(t3, t4, t5, t6, t8), S5(t1, t4, t5, t6, t7));
  }

  lemma MaskIsSubstXorKey(sb: SBoxes, x: Half, k: Half)
    ensures RoundMask(sb, x, Unspread(k)) == Xor(SubstPermute(sb, x), k)
  {
    var t1, t2, t3, t4 := sb.s1(Byte0(x.l)), sb.s2(Byte1(x.l)), sb.s3(Byte2(x.l)), sb.s4(Byte3(x.l));
    var t5, t6, t7, t8 := sb.s2(Byte0(x.r)), sb.s3(Byte1(x.r)), sb.s4(Byte2(x.r)), sb.s1(Byte3(x.r));
    LookupPermutes(t1, t2, t3, t4, t5, t6, t7, t8);
    KeyedMaskUnspread(Lookup(t1, t2, t3, t4), Lookup(t8, t5, t6, t7), k);
  }

  lemma WordOpsLawful(sb: SBoxes)
    ensures Lawful(WordOps(sb))
  {
    var o := WordOps(sb);
    forall a: Half, b: Half
      ensures o.xor(o.xor(a, b), b) == a && o.xor(a, b) == o.xor(b, a)
    {
      XorLaws(a, b, a);
    }
    forall a: Half, b: Half, c: Half
      ensures o.xor(a, o.xor(b, c)) == o.xor(o.xor(a, b), c)
    {
      XorLaws(a, b, c);
    }
    forall x: Half, k: Half
      ensures o.flInv(o.fl(x, k), k) == x && o.fl(o.flInv(x, k), k) == x
      ensures o.mask(x, o.unspread(k)) == o.xor(o.subst(x), k)
    {
      FLInverts(x, k);
      MaskIsSubstXorKey(sb, x, k);
    }
    forall x: Half, v: Half, k: Half
      ensures o.flInv(o.xor(x, v), k) == o.xor(o.flInv(x, k), o.absorb(v, k))
      ensures o.absorb(o.xor(x, v), k) == o.xor(o.absorb(x, k), o.absorb(v, k))
    {
      AbsorbLinear(x, v, k);
      FLInvIsAffine(x, v, k);
    }
  }

  // ---------------------------------------------------------------------------
  // The two theorems for the source's cipher
  // ---------------------------------------------------------------------------

  /** For every raw subkey set and all S-boxes, encryption with the source's table is the
      cipher of RFC 3713. */
  lemma EncryptIsRfcOnWords(sb: SBoxes, sub: seq<Half>, max: nat, table: seq<Half>, p: Block<Half>)
    requires IsSubkeys(sub, max) && IsTableOf(WordOps(sb), table, sub, max)
    ensures TableEncrypt(WordOps(sb), table, max, p) == RfcCipher(WordOps(sb), sub, max, p)
  {
    WordOpsLawful(sb);
    TableEncryptIsRfc(WordOps(sb), sub, max, table, p);
  }

  /** Decryption inverts encryption for every table whatsoever. */
  lemma DecryptInvertsEncrypt(sb: SBoxes, table: seq<Half>, max: nat, p: Block<Half>)
    requires IsTable(table, max)
    ensures TableDecrypt(WordOps(sb), table, max, TableEncrypt(WordOps(sb), table, max, p)) == p
  {
    WordOpsLawful(sb);
    RoundTrip(WordOps(sb), table, max, p);
  }
}
