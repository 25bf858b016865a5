/** The round structure of Camellia over an arbitrary carrier for 64-bit halves.

    The cipher of RFC 3713 and the source's cipher, which runs on a table of pre-mixed
    subkeys, are two networks built from the same operations.  What relates them is only
    that exclusive or is a group of exponent two, that FL and FLINV are affine and inverse
    to each other, and that the round macro mixes its key in linearly. */
module CamelliaNetwork {

  /** `d1` is io[0], io[1] and `d2` is io[2], io[3] in the source. */
  datatype Block<H> = Block(d1: H, d2: H)

  /** The operations on halves.  `mask` is what CAMELLIA_ROUNDSM xors into its output half,
      `subst` is the F-function without its key, `absorb` carries a key across an FL layer,
      and `unspread` undoes the last half of the P-function. */
  datatype Ops<!H> = Ops(
    xor: (H, H) -> H,
    subst: H -> H,
    mask: (H, H) -> H,
    fl: (H, H) -> H,
    flInv: (H, H) -> H,
    absorb: (H, H) -> H,
    unspread: H -> H
  )

  // ---------------------------------------------------------------------------
  // Laws
  // ---------------------------------------------------------------------------

  // Markers that let a proof name the instance of a law it uses.
  ghost predicate At2<H>(a: H, b: H) { true }
  ghost predicate At3<H>(a: H, b: H, c: H) { true }

  ghost predicate XorGroup<H(!new)>(o: Ops<H>) {
    && (forall a: H, b: H {:trigger At2(a, b)} :: At2(a, b) ==>
          o.xor(o.xor(a, b), b) == a && o.xor(a, b) == o.xor(b, a))
    && (forall a: H, b: H, c: H {:trigger At3(a, b, c)} :: At3(a, b, c) ==>
          o.xor(a, o.xor(b, c)) == o.xor(o.xor(a, b), c))
  }

  ghost predicate FLInverse<H(!new)>(o: Ops<H>) {
    forall x: H, k: H {:trigger At2(x, k)} :: At2(x, k) ==>
      o.flInv(o.fl(x, k), k) == x && o.fl(o.flInv(x, k), k) == x
  }

  ghost predicate FLAffine<H(!new)>(o: Ops<H>) {
    forall x: H, v: H, k: H {:trigger At3(x, v, k)} :: At3(x, v, k) ==>
      && o.flInv(o.xor(x, v), k) == o.xor(o.flInv(x, k), o.absorb(v, k))
      && o.absorb(o.xor(x, v), k) == o.xor(o.absorb(x, k), o.absorb(v, k))
  }

  ghost predicate MaskLinear<H(!new)>(o: Ops<H>) {
    forall x: H, k: H {:trigger At2(x, k)} :: At2(x, k) ==>
      o.mask(x, o.unspread(k)) == o.xor(o.subst(x), k)
  }

  ghost predicate Lawful<H(!new)>(o: Ops<H>) {
    XorGroup(o) && FLInverse(o) && FLAffine(o) && MaskLinear(o)
  }

  lemma XorSelf<H(!new)>(o: Ops<H>, a: H, b: H)
    requires XorGroup(o)
    ensures o.xor(o.xor(a, b), b) == a
  {
    assert At2(a, b);
  }

  lemma XorComm<H(!new)>(o: Ops<H>, a: H, b: H)
    requires XorGroup(o)
    ensures o.xor(a, b) == o.xor(b, a)
  {
    assert At2(a, b);
  }

  lemma XorAssoc<H(!new)>(o: Ops<H>, a: H, b: H, c: H)
    requires XorGroup(o)
    ensures o.xor(a, o.xor(b, c)) == o.xor(o.xor(a, b), c)
  {
    assert At3(a, b, c);
  }

  /** A key absorbed on both sides of an exclusive or cancels. */
  lemma XorCancel<H(!new)>(o: Ops<H>, a: H, b: H, v: H)
    requires XorGroup(o)
    ensures o.xor(o.xor(a, v), o.xor(b, v)) == o.xor(a, b)
  {
    XorComm(o, b, v);
    XorAssoc(o, o.xor(a, v), v, b);
    XorSelf(o, a, v);
  }

  lemma FLUndone<H(!new)>(o: Ops<H>, x: H, k: H)
    requires FLInverse(o)
    ensures o.flInv(o.fl(x, k), k) == x
    ensures o.fl(o.flInv(x, k), k) == x
  {
    assert At2(x, k);
  }

  lemma FLInvShift<H(!new)>(o: Ops<H>, x: H, v: H, k: H)
    requires FLAffine(o)
    ensures o.flInv(o.xor(x, v), k) == o.xor(o.flInv(x, k), o.absorb(v, k))
    ensures o.absorb(o.xor(x, v), k) == o.xor(o.absorb(x, k), o.absorb(v, k))
  {
    assert At3(x, v, k);
  }

  lemma FLShift<H(!new)>(o: Ops<H>, x: H, v: H, k: H)
    requires Lawful(o)
    ensures o.fl(o.xor(x, o.absorb(v, k)), k) == o.xor(o.fl(x, k), v)
  {
    var y := o.fl(x, k);
    FLUndone(o, x, k);
    FLInvShift(o, y, v, k);
    FLUndone(o, o.xor(y, v), k);
  }

  // ---------------------------------------------------------------------------
  // The cipher of RFC 3713, section 2.3
  // ---------------------------------------------------------------------------

  /** Subkeys in the order the source keeps them: kw1, kw2, k1..k6, ke1, ke2, k7..k12, ...,
      kw3, kw4.  `max` is 24 for 128-bit keys and 32 for longer ones. */
  predicate IsSubkeys<H>(sub: seq<H>, max: nat) {
    && (max == 24 || max == 32)
    && |sub| == max + 2
  }

  function F<H>(o: Ops<H>, x: H, k: H): H {
    o.subst(o.xor(x, k))
  }

  function TwoRounds<H>(o: Ops<H>, d: Block<H>, k: H, k': H): Block<H> {
    var d2 := o.xor(d.d2, F(o, d.d1, k));
    Block(o.xor(d.d1, F(o, d2, k')), d2)
  }

  function SixRounds<H>(o: Ops<H>, sub: seq<H>, d: Block<H>, b: nat): Block<H>
    requires b + 5 < |sub|
  {
    TwoRounds(o, TwoRounds(o, TwoRounds(o, d, sub[b], sub[b+1]), sub[b+2], sub[b+3]), sub[b+4], sub[b+5])
  }

  function FLLayer<H>(o: Ops<H>, d: Block<H>, k: H, k': H): Block<H> {
    Block(o.fl(d.d1, k), o.flInv(d.d2, k'))
  }

  /** The state after `g` groups of six rounds, with the FL/FLINV layers between groups. */
  function Groups<H>(o: Ops<H>, sub: seq<H>, d: Block<H>, g: nat): Block<H>
    requires 8 * g <= |sub|
    decreases g
  {
    if g == 0 then d
    else if g == 1 then SixRounds(o, sub, d, 2)
    else
      var b := 8 * (g - 1);
      SixRounds(o, sub, FLLayer(o, Groups(o, sub, d, g - 1), sub[b], sub[b+1]), b + 2)
  }

  /** Pre-whitening, rounds, post-whitening, and the final swap of the halves. */
  function RfcCipher<H>(o: Ops<H>, sub: seq<H>, max: nat, p: Block<H>): Block<H>
    requires IsSubkeys(sub, max)
  {
    var d := Groups(o, sub, Block(o.xor(p.d1, sub[0]), o.xor(p.d2, sub[1])), max / 8);
    Block(o.xor(d.d2, sub[max]), o.xor(d.d1, sub[max + 1]))
  }

  // ---------------------------------------------------------------------------
  // The source's cipher over its subkey table
  // ---------------------------------------------------------------------------

  predicate IsTable<H>(table: seq<H>, max: nat) {
    && (max == 24 || max == 32)
    && max < |table|
  }

  function TwoMasks<H>(o: Ops<H>, d: Block<H>, k: H, k': H): Block<H> {
    var d2 := o.xor(d.d2, o.mask(d.d1, k));
    Block(o.xor(d.d1, o.mask(d2, k')), d2)
  }

  /** ROUNDS(i) of camellia_do_encrypt. */
  function Rounds<H>(o: Ops<H>, table: seq<H>, d: Block<H>, i: nat): Block<H>
    requires i + 7 < |table|
  {
    TwoMasks(o,
      TwoMasks(o, TwoMasks(o, d, table[i+2], table[i+3]), table[i+4], table[i+5]),
      table[i+6], table[i+7])
  }

  /** ROUNDS(i) of camellia_do_decrypt. */
  function RoundsBack<H>(o: Ops<H>, table: seq<H>, d: Block<H>, i: nat): Block<H>
    requires i + 7 < |table|
  {
    TwoMasks(o,
      TwoMasks(o, TwoMasks(o, d, table[i+7], table[i+6]), table[i+5], table[i+4]),
      table[i+3], table[i+2])
  }

  function EncryptGroups<H>(o: Ops<H>, table: seq<H>, d: Block<H>, g: nat): Block<H>
    requires 8 * g <= |table|
    decreases g
  {
    if g == 0 then d
    else if g == 1 then Rounds(o, table, d, 0)
    else
      var b := 8 * (g - 1);
      Rounds(o, table, FLLayer(o, EncryptGroups(o, table, d, g - 1), table[b], table[b+1]), b)
  }

  /** Decryption of the first `g` groups, last group first. */
  function DecryptGroups<H>(o: Ops<H>, table: seq<H>, d: Block<H>, g: nat): Block<H>
    requires 8 * g <= |table|
    decreases g
  {
    if g == 0 then d
    else if g == 1 then RoundsBack(o, table, d, 0)
    else
      var b := 8 * (g - 1);
      DecryptGroups(o, table, FLLayer(o, RoundsBack(o, table, d, b), table[b+1], table[b]), g - 1)
  }

  function Swap<H>(d: Block<H>): Block<H> {
    Block(d.d2, d.d1)
  }

  /** camellia_do_encrypt followed by the half swap its caller does. */
  function TableEncrypt<H>(o: Ops<H>, table: seq<H>, max: nat, p: Block<H>): Block<H>
    requires IsTable(table, max)
  {
    var d := EncryptGroups(o, table, p.(d1 := o.xor(p.d1, table[0])), max / 8);
    Block(o.xor(d.d2, table[max]), d.d1)
  }

  /** camellia_do_decrypt followed by the half swap its caller does. */
  function TableDecrypt<H>(o: Ops<H>, table: seq<H>, max: nat, c: Block<H>): Block<H>
    requires IsTable(table, max)
  {
    var d := DecryptGroups(o, table, c.(d1 := o.xor(c.d1, table[max])), max / 8);
    Block(o.xor(d.d2, table[0]), d.d1)
  }

  // ---------------------------------------------------------------------------
  // Round trip, for every table
  // ---------------------------------------------------------------------------

  lemma TwoMasksUndone<H(!new)>(o: Ops<H>, d: Block<H>, k: H, k': H)
    requires XorGroup(o)
    ensures TwoMasks(o, Swap(TwoMasks(o, d, k, k')), k', k) == Swap(d)
  {
    var e := TwoMasks(o, d, k, k');
    XorSelf(o, d.d1, o.mask(e.d2, k'));
    XorSelf(o, d.d2, o.mask(d.d1, k));
  }

  lemma RoundsUndone<H(!new)>(o: Ops<H>, table: seq<H>, d: Block<H>, i: nat)
    requires XorGroup(o) && i + 7 < |table|
    ensures RoundsBack(o, table, Swap(Rounds(o, table, d, i)), i) == Swap(d)
  {
    var d' := TwoMasks(o, d, table[i+2], table[i+3]);
    var d'' := TwoMasks(o, d', table[i+4], table[i+5]);
    TwoMasksUndone(o, d, table[i+2], table[i+3]);
    TwoMasksUndone(o, d', table[i+4], table[i+5]);
    TwoMasksUndone(o, d'', table[i+6], table[i+7]);
  }

  lemma FLLayerUndone<H(!new)>(o: Ops<H>, d: Block<H>, k: H, k': H)
    requires FLInverse(o)
    ensures FLLayer(o, Swap(FLLayer(o, d, k, k')), k', k) == Swap(d)
  {
    FLUndone(o, d.d1, k);
    FLUndone(o, d.d2, k');
  }

  lemma {:induction false} GroupsUndone<H(!new)>(o: Ops<H>, table: seq<H>, d: Block<H>, g: nat)
    requires XorGroup(o) && FLInverse(o) && 8 * g <= |table|
    ensures DecryptGroups(o, table, Swap(EncryptGroups(o, table, d, g)), g) == Swap(d)
    decreases g
  {
    if g == 1 {
      RoundsUndone(o, table, d, 0);
    } else if g > 1 {
      var b := 8 * (g - 1);
      var e := EncryptGroups(o, table, d, g - 1);
      RoundsUndone(o, table, FLLayer(o, e, table[b], table[b+1]), b);
      FLLayerUndone(o, e, table[b], table[b+1]);
      GroupsUndone(o, table, d, g - 1);
    }
  }

  /** Decryption undoes encryption for every subkey table, every block and both sizes. */
  lemma RoundTrip<H(!new)>(o: Ops<H>, table: seq<H>, max: nat, p: Block<H>)
    requires XorGroup(o) && FLInverse(o) && IsTable(table, max)
    ensures TableDecrypt(o, table, max, TableEncrypt(o, table, max, p)) == p
  {
    var d0 := p.(d1 := o.xor(p.d1, table[0]));
    var d := EncryptGroups(o, table, d0, max / 8);
    GroupsUndone(o, table, d0, max / 8);
    XorSelf(o, d.d2, table[max]);
    XorSelf(o, p.d1, table[0]);
  }

  // ---------------------------------------------------------------------------
  // The table that camellia_setup_tail is meant to build
  // ---------------------------------------------------------------------------

  /** The key difference that the round with table index j has to mix in, in terms of the
      raw subkeys: out goes the key its output half carries, in comes the key the half needs
      next.  Entry 0 and entry max are whitening keys, and 8, 9, 16, 17, ... FL keys. */
  function Mixed<H>(o: Ops<H>, sub: seq<H>, max: nat, j: nat): H
    requires IsSubkeys(sub, max) && j <= max && j != 1
  {
    if j == 0 then o.xor(sub[0], sub[2])
    else if j == max then o.xor(sub[max], sub[max - 1])
    else if j % 8 < 2 then sub[j]
    else if j == 2 then o.xor(sub[1], sub[3])
    else if j % 8 == 2 then o.xor(o.absorb(sub[j - 3], sub[j - 1]), sub[j + 1])
    else if j == max - 1 then o.xor(sub[j - 1], sub[max + 1])
    else if j % 8 == 7 then o.xor(sub[j - 1], o.absorb(sub[j + 3], sub[j + 1]))
    else o.xor(sub[j - 1], sub[j + 1])
  }

  predicate IsRound(max: nat, j: nat) {
    j < max && 2 <= j % 8
  }

  function Entry<H>(o: Ops<H>, sub: seq<H>, max: nat, j: nat): H
    requires IsSubkeys(sub, max) && j <= max && j != 1
  {
    if IsRound(max, j) then o.unspread(Mixed(o, sub, max, j)) else Mixed(o, sub, max, j)
  }

  /** Entry 1 of the table is never written and never read. */
  ghost predicate IsTableOf<H>(o: Ops<H>, table: seq<H>, sub: seq<H>, max: nat)
    requires IsSubkeys(sub, max)
  {
    && IsTable(table, max)
    && forall j | 0 <= j <= max && j != 1 :: table[j] == Entry(o, sub, max, j)
  }

  // ---------------------------------------------------------------------------
  // The table computes the cipher of RFC 3713
  // ---------------------------------------------------------------------------

  /** The state of the source: the halves of RFC 3713, each offset by a key. */
  function Offset<H>(o: Ops<H>, d: Block<H>, a: H, b: H): Block<H> {
    Block(o.xor(d.d1, a), o.xor(d.d2, b))
  }

  /** A round exchanges the key that its output half carries. */
  lemma HalfRound<H(!new)>(o: Ops<H>, d: H, a: H, b: H, x: H)
    requires Lawful(o)
    ensures o.xor(o.xor(d, a), o.mask(x, o.unspread(o.xor(a, b)))) == o.xor(o.xor(d, o.subst(x)), b)
  {
    var s := o.subst(x);
    calc {
      o.xor(o.xor(d, a), o.mask(x, o.unspread(o.xor(a, b))));
      { assert At2(x, o.xor(a, b)); }
      o.xor(o.xor(d, a), o.xor(s, o.xor(a, b)));
      { XorComm(o, s, o.xor(a, b)); XorAssoc(o, o.xor(d, a), o.xor(a, b), s); XorAssoc(o, o.xor(d, a), a, b); }
      o.xor(o.xor(o.xor(o.xor(d, a), a), b), s);
      { XorSelf(o, d, a); XorAssoc(o, d, b, s); XorComm(o, b, s); XorAssoc(o, d, s, b); }
      o.xor(o.xor(d, s), b);
    }
  }

  lemma TwoRoundsSim<H(!new)>(o: Ops<H>, d: Block<H>, k: H, k': H, a: H, b: H)
    requires Lawful(o)
    ensures TwoMasks(o, Offset(o, d, k, a), o.unspread(o.xor(a, k')), o.unspread(o.xor(k, b)))
         == Offset(o, TwoRounds(o, d, k, k'), b, k')
  {
    HalfRound(o, d.d2, a, k', o.xor(d.d1, k));
    var d2 := o.xor(d.d2, F(o, d.d1, k));
    HalfRound(o, d.d1, k, b, o.xor(d2, k'));
  }

  /** The key that the right half carries into group g. */
  function KeyIn<H>(o: Ops<H>, sub: seq<H>, max: nat, g: nat): H
    requires IsSubkeys(sub, max) && 8 * g < max
  {
    if g == 0 then sub[1] else o.absorb(sub[8*g-1], sub[8*g+1])
  }

  /** The key that the left half carries out of group g. */
  function KeyOut<H>(o: Ops<H>, sub: seq<H>, max: nat, g: nat): H
    requires IsSubkeys(sub, max) && 8 * g < max
  {
    if 8 * g + 8 == max then sub[max+1] else o.absorb(sub[8*g+10], sub[8*g+8])
  }

  /** The table entries of the six rounds of group g. */
  lemma RoundEntries<H>(o: Ops<H>, sub: seq<H>, max: nat, table: seq<H>, g: nat)
    requires IsSubkeys(sub, max) && IsTableOf(o, table, sub, max) && 8 * g < max
    ensures table[8*g+2] == o.unspread(o.xor(KeyIn(o, sub, max, g), sub[8*g+3]))
    ensures table[8*g+3] == o.unspread(o.xor(sub[8*g+2], sub[8*g+4]))
    ensures table[8*g+4] == o.unspread(o.xor(sub[8*g+3], sub[8*g+5]))
    ensures table[8*g+5] == o.unspread(o.xor(sub[8*g+4], sub[8*g+6]))
    ensures table[8*g+6] == o.unspread(o.xor(sub[8*g+5], sub[8*g+7]))
    ensures table[8*g+7] == o.unspread(o.xor(sub[8*g+6], KeyOut(o, sub, max, g)))
  {
  }

  lemma RoundsSim<H(!new)>(o: Ops<H>, sub: seq<H>, max: nat, table: seq<H>, d: Block<H>, g: nat)
    requires IsSubkeys(sub, max) && IsTableOf(o, table, sub, max) && Lawful(o) && 8 * g < max
    ensures Rounds(o, table, Offset(o, d, sub[8*g+2], KeyIn(o, sub, max, g)), 8 * g)
         == Offset(o, SixRounds(o, sub, d, 8 * g + 2), KeyOut(o, sub, max, g), sub[8*g+7])
  {
    var b := 8 * g + 2;
    RoundEntries(o, sub, max, table, g);
    hide Lawful, KeyIn, KeyOut, TwoRounds, TwoMasks, Offset;
    var d' := TwoRounds(o, d, sub[b], sub[b+1]);
    var d'' := TwoRounds(o, d', sub[b+2], sub[b+3]);
    TwoRoundsSim(o, d, sub[b], sub[b+1], KeyIn(o, sub, max, g), sub[b+2]);
    TwoRoundsSim(o, d', sub[b+2], sub[b+3], sub[b+1], sub[b+4]);
    TwoRoundsSim(o, d'', sub[b+4], sub[b+5], sub[b+3], KeyOut(o, sub, max, g));
  }

  lemma FLLayerSim<H(!new)>(o: Ops<H>, d: Block<H>, a: H, b: H, k: H, k': H)
    requires Lawful(o)
    ensures FLLayer(o, Offset(o, d, o.absorb(a, k), b), k, k')
         == Offset(o, FLLayer(o, d, k, k'), a, o.absorb(b, k'))
  {
    FLShift(o, d.d1, a, k);
    FLInvShift(o, d.d2, b, k');
  }

  lemma FLEntries<H>(o: Ops<H>, sub: seq<H>, max: nat, table: seq<H>, g: nat)
    requires IsSubkeys(sub, max) && IsTableOf(o, table, sub, max) && 1 <= g && 8 * g < max
    ensures table[8*g] == sub[8*g] && table[8*g+1] == sub[8*g+1]
  {
  }

  /** One FL layer and the group after it. */
  lemma GroupSim<H(!new)>(o: Ops<H>, sub: seq<H>, max: nat, table: seq<H>, e: Block<H>, g: nat)
    requires IsSubkeys(sub, max) && IsTableOf(o, table, sub, max) && Lawful(o) && 1 <= g && 8 * g < max
    ensures Rounds(o, table, FLLayer(o, Offset(o, e, KeyOut(o, sub, max, g - 1), sub[8*g-1]), table[8*g], table[8*g+1]), 8*g)
         == Offset(o, SixRounds(o, sub, FLLayer(o, e, sub[8*g], sub[8*g+1]), 8*g+2), KeyOut(o, sub, max, g), sub[8*g+7])
  {
    FLEntries(o, sub, max, table, g);
    FLLayerSim(o, e, sub[8*g+2], sub[8*g-1], sub[8*g], sub[8*g+1]);
    RoundsSim(o, sub, max, table, FLLayer(o, e, sub[8*g], sub[8*g+1]), g);
  }

  lemma {:induction false} GroupsSim<H(!new)>(o: Ops<H>, sub: seq<H>, max: nat, table: seq<H>, d: Block<H>, g: nat)
    requires IsSubkeys(sub, max) && IsTableOf(o, table, sub, max) && Lawful(o)
    requires 1 <= g <= max / 8
    ensures EncryptGroups(o, table, Offset(o, d, sub[2], sub[1]), g)
         == Offset(o, Groups(o, sub, d, g), KeyOut(o, sub, max, g - 1), sub[8*g-1])
    decreases g
  {
    assert max < |table|;
    hide Lawful, IsTableOf, Rounds, SixRounds, FLLayer, Offset, KeyOut;
    if g == 1 {
      RoundsSim(o, sub, max, table, d, 0);
    } else {
      GroupsSim(o, sub, max, table, d, g - 1);
      GroupSim(o, sub, max, table, Groups(o, sub, d, g - 1), g - 1);
    }
  }

  lemma WhiteningIn<H(!new)>(o: Ops<H>, sub: seq<H>, max: nat, table: seq<H>, p: Block<H>)
    requires IsSubkeys(sub, max) && IsTableOf(o, table, sub, max) && Lawful(o)
    ensures p.(d1 := o.xor(p.d1, table[0]))
         == Offset(o, Block(o.xor(p.d1, sub[0]), o.xor(p.d2, sub[1])), sub[2], sub[1])
  {
    XorAssoc(o, p.d1, sub[0], sub[2]);
    XorSelf(o, p.d2, sub[1]);
  }

  lemma WhiteningOut<H(!new)>(o: Ops<H>, sub: seq<H>, max: nat, table: seq<H>, d: H)
    requires IsSubkeys(sub, max) && IsTableOf(o, table, sub, max) && Lawful(o)
    ensures o.xor(o.xor(d, sub[max-1]), table[max]) == o.xor(d, sub[max])
  {
    XorComm(o, sub[max], sub[max-1]);
    XorAssoc(o, o.xor(d, sub[max-1]), sub[max-1], sub[max]);
    XorSelf(o, d, sub[max-1]);
  }

  /** The table's cipher is the plain cipher, for every set of raw subkeys. */
  lemma TableEncryptIsRfc<H(!new)>(o: Ops<H>, sub: seq<H>, max: nat, table: seq<H>, p: Block<H>)
    requires IsSubkeys(sub, max) && IsTableOf(o, table, sub, max) && Lawful(o)
    ensures TableEncrypt(o, table, max, p) == RfcCipher(o, sub, max, p)
  {
    assert max < |table|;
    hide Lawful, IsTableOf, Groups, EncryptGroups;
    var d := Block(o.xor(p.d1, sub[0]), o.xor(p.d2, sub[1]));
    var g := max / 8;
    WhiteningIn(o, sub, max, table, p);
    GroupsSim(o, sub, max, table, d, g);
    WhiteningOut(o, sub, max, table, Groups(o, sub, d, g).d2);
  }
}
