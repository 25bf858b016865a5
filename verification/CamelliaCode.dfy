/** camellia_setup_tail, camellia_do_encrypt and camellia_do_decrypt on their arrays.

    The source's pairs subL[i], subR[i] and SUBKEY_L(i), SUBKEY_R(i) are one array element
    here, and io[0], io[1] and io[2], io[3] are io[0] and io[1]. */
module CamelliaCode {
  import opened CamelliaNetwork

  // ---------------------------------------------------------------------------
  // What the absorption of the whitening keys leaves in the subkeys
  // ---------------------------------------------------------------------------

  /** kw2 as it reaches group g, having crossed the FLINV layers before it. */
  ghost function Kw2At<H>(o: Ops<H>, s: seq<H>, g: nat): H
    requires 8 * g + 2 <= |s|
  {
    if g == 0 then s[1] else o.absorb(Kw2At(o, s, g - 1), s[8*g+1])
  }

  /** kw4 as it reaches group g, having crossed the FL layers after it backwards. */
  ghost function Kw4At<H>(o: Ops<H>, s: seq<H>, max: nat, g: nat): H
    requires IsSubkeys(s, max) && 8 * g < max
    decreases max - g
  {
    if 8 * g + 8 == max then s[max+1] else o.absorb(Kw4At(o, s, max, g + 1), s[8*g+8])
  }

  ghost function AfterKw2<H>(o: Ops<H>, s: seq<H>, max: nat, j: nat): H
    requires IsSubkeys(s, max) && j < |s|
  {
    if j == 1 then Kw2At(o, s, max / 8 - 1)
    else if j == max then o.xor(s[j], Kw2At(o, s, max / 8 - 1))
    else if j < max && j % 8 in {3, 5, 7} then o.xor(s[j], Kw2At(o, s, j / 8))
    else s[j]
  }

  ghost function Absorbed<H>(o: Ops<H>, s: seq<H>, max: nat, j: nat): H
    requires IsSubkeys(s, max) && j < |s|
  {
    if j == 0 then o.xor(s[j], Kw4At(o, s, max, 0))
    else if j < max && j % 8 in {2, 4, 6} then o.xor(s[j], Kw4At(o, s, max, j / 8))
    else AfterKw2(o, s, max, j)
  }

  /** Table entry j before the last half of P is undone, from the absorbed subkeys a. */
  ghost function Emitted<H>(o: Ops<H>, a: seq<H>, max: nat, j: nat): H
    requires IsSubkeys(a, max) && j <= max && j != 1
  {
    if j == 0 then o.xor(a[0], a[2])
    else if j == max then o.xor(a[max], a[max-1])
    else if j % 8 < 2 then a[j]
    else if j == 2 then a[3]
    else if j % 8 == 2 then o.xor(o.absorb(a[j-3], a[j-1]), a[j+1])
    else if j == max - 1 then a[j-1]
    else if j % 8 == 7 then o.xor(a[j-1], o.absorb(a[j+3], a[j+1]))
    else o.xor(a[j-1], a[j+1])
  }

  ghost predicate IsAbsorbed<H>(o: Ops<H>, s: seq<H>, a: seq<H>, max: nat) {
    && IsSubkeys(s, max)
    && IsSubkeys(a, max)
    && forall i | 0 <= i < |s| :: a[i] == Absorbed(o, s, max, i)
  }

  /** The absorbed whitening keys cancel in every table entry except where they belong. */
  lemma AbsorptionTelescopes<H(!new)>(o: Ops<H>, s: seq<H>, a: seq<H>, max: nat, j: nat)
    requires Lawful(o) && IsAbsorbed(o, s, a, max)
    requires j <= max && j != 1
    ensures Emitted(o, a, max, j) == Mixed(o, s, max, j)
  {
    if j < 3 || max - 1 <= j {
      EndsTelescope(o, s, a, max, j);
    } else if j % 8 == 2 {
      CrossForward(o, s, a, max, j / 8);
    } else if j % 8 == 7 {
      CrossBackward(o, s, a, max, j / 8);
    } else if 2 <= j % 8 {
      InsideCancels(o, s, a, max, j);
    }
  }

  lemma EndsTelescope<H(!new)>(o: Ops<H>, s: seq<H>, a: seq<H>, max: nat, j: nat)
    requires Lawful(o) && IsAbsorbed(o, s, a, max)
    requires j == 0 || j == 2 || j == max - 1 || j == max
    ensures Emitted(o, a, max, j) == Mixed(o, s, max, j)
  {
    if j == 0 {
      XorCancel(o, s[0], s[2], Kw4At(o, s, max, 0));
    } else if j == 2 {
      XorComm(o, s[1], s[3]);
    } else if j == max {
      XorCancel(o, s[max], s[max-1], Kw2At(o, s, max / 8 - 1));
    }
  }

  lemma InsideCancels<H(!new)>(o: Ops<H>, s: seq<H>, a: seq<H>, max: nat, j: nat)
    requires Lawful(o) && IsAbsorbed(o, s, a, max)
    requires j < max && 3 <= j % 8 <= 6
    ensures o.xor(a[j-1], a[j+1]) == o.xor(s[j-1], s[j+1])
  {
    var g := j / 8;
    assert (j - 1) / 8 == g && (j + 1) / 8 == g && (j - 1) % 8 == j % 8 - 1 && (j + 1) % 8 == j % 8 + 1;
    if j % 8 == 4 || j % 8 == 6 {
      XorCancel(o, s[j-1], s[j+1], Kw2At(o, s, g));
    } else {
      XorCancel(o, s[j-1], s[j+1], Kw4At(o, s, max, g));
    }
  }

  lemma CrossForward<H(!new)>(o: Ops<H>, s: seq<H>, a: seq<H>, max: nat, g: nat)
    requires Lawful(o) && IsAbsorbed(o, s, a, max)
    requires 1 <= g && 8 * g < max
    ensures o.xor(o.absorb(a[8*g-1], a[8*g+1]), a[8*g+3]) == o.xor(o.absorb(s[8*g-1], s[8*g+1]), s[8*g+3])
  {
    var k := s[8*g+1];
    assert a[8*g-1] == o.xor(s[8*g-1], Kw2At(o, s, g - 1));
    assert a[8*g+1] == k;
    assert a[8*g+3] == o.xor(s[8*g+3], Kw2At(o, s, g));
    FLInvShift(o, s[8*g-1], Kw2At(o, s, g - 1), k);
    XorCancel(o, o.absorb(s[8*g-1], k), s[8*g+3], Kw2At(o, s, g));
  }

  lemma CrossBackward<H(!new)>(o: Ops<H>, s: seq<H>, a: seq<H>, max: nat, g: nat)
    requires Lawful(o) && IsAbsorbed(o, s, a, max)
    requires 8 * g + 8 < max
    ensures o.xor(a[8*g+6], o.absorb(a[8*g+10], a[8*g+8])) == o.xor(s[8*g+6], o.absorb(s[8*g+10], s[8*g+8]))
  {
    var k := s[8*g+8];
    assert a[8*g+6] == o.xor(s[8*g+6], Kw4At(o, s, max, g));
    assert a[8*g+8] == k;
    assert a[8*g+10] == o.xor(s[8*g+10], Kw4At(o, s, max, g + 1));
    FLInvShift(o, s[8*g+10], Kw4At(o, s, max, g + 1), k);
    XorCancel(o, s[8*g+6], o.absorb(s[8*g+10], k), Kw4At(o, s, max, g));
  }

  // ---------------------------------------------------------------------------
  // camellia_setup_tail
  // ---------------------------------------------------------------------------

  /** Adds v to three subkeys of the same half. */
  method XorThree<H>(o: Ops<H>, sub: array<H>, i: nat, v: H)
    requires i + 4 < sub.Length
    modifies sub
    ensures forall j | 0 <= j < sub.Length ::
              sub[j] == if j == i || j == i + 2 || j == i + 4 then o.xor(old(sub[j]), v) else old(sub[j])
  {
    sub[i] := o.xor(sub[i], v);
    sub[i+2] := o.xor(sub[i+2], v);
    sub[i+4] := o.xor(sub[i+4], v);
  }

  method AbsorbKw2<H>(o: Ops<H>, sub: array<H>, max: nat)
    requires IsSubkeys(sub[..], max)
    modifies sub
    ensures forall j | 0 <= j < sub.Length :: sub[j] == AfterKw2(o, old(sub[..]), max, j)
  {
    ghost var s := sub[..];
    XorThree(o, sub, 3, sub[1]);
    sub[1] := o.absorb(sub[1], sub[9]);
    assert sub[1] == Kw2At(o, s, 1);
    XorThree(o, sub, 11, sub[1]);
    sub[1] := o.absorb(sub[1], sub[17]);
    assert sub[1] == Kw2At(o, s, 2);
    XorThree(o, sub, 19, sub[1]);
    if max == 32 {
      sub[1] := o.absorb(sub[1], sub[25]);
      assert sub[1] == Kw2At(o, s, 3);
      XorThree(o, sub, 27, sub[1]);
    }
    sub[max] := o.xor(sub[max], sub[1]);
  }

  method AbsorbKw4<H>(o: Ops<H>, sub: array<H>, max: nat, ghost s: seq<H>)
    requires IsSubkeys(s, max) && sub.Length == |s|
    requires forall j | 0 <= j < sub.Length :: sub[j] == AfterKw2(o, s, max, j)
    modifies sub
    ensures forall j | 0 <= j < sub.Length :: sub[j] == Absorbed(o, s, max, j)
  {
    var kw4 := sub[max+1];
    assert sub[8] == s[8] && sub[16] == s[16] && sub[24] == (if max == 32 then s[24] else sub[24]) && kw4 == s[max+1];
    hide AfterKw2;
    if max == 32 {
      XorThree(o, sub, 26, kw4);
      kw4 := o.absorb(kw4, sub[24]);
    }
    assert kw4 == Kw4At(o, s, max, 2);
    XorThree(o, sub, 18, kw4);
    kw4 := o.absorb(kw4, sub[16]);
    XorThree(o, sub, 10, kw4);
    kw4 := o.absorb(kw4, sub[8]);
    XorThree(o, sub, 2, kw4);
    sub[0] := o.xor(sub[0], kw4);
  }

  /** The six round entries of group g, and the FL keys after it. */
  ghost predicate GroupEmitted<H>(o: Ops<H>, a: seq<H>, max: nat, g: nat, t: seq<H>)
    requires IsSubkeys(a, max) && 8 * g < max < |t|
  {
    var b := 8 * g;
    && t[b+2] == (if g == 0 then a[b+3] else o.xor(o.absorb(a[b-1], a[b+1]), a[b+3]))
    && t[b+3] == o.xor(a[b+2], a[b+4])
    && t[b+4] == o.xor(a[b+3], a[b+5])
    && t[b+5] == o.xor(a[b+4], a[b+6])
    && t[b+6] == o.xor(a[b+5], a[b+7])
    && t[b+7] == (if b + 8 == max then a[b+6] else o.xor(a[b+6], o.absorb(a[b+10], a[b+8])))
    && (b + 8 < max ==> t[b+8] == a[b+8] && t[b+9] == a[b+9])
  }

  lemma GroupEmittedEntries<H>(o: Ops<H>, a: seq<H>, max: nat, g: nat, t: seq<H>, j: nat)
    requires IsSubkeys(a, max) && 8 * g < max < |t| && GroupEmitted(o, a, max, g, t)
    requires 8 * g + 2 <= j < 8 * g + 10 && j < max
    ensures t[j] == Emitted(o, a, max, j)
  {
    var i := j - 8 * g;
    assert j % 8 == if i < 8 then i else i - 8;
  }

  method EmitGroup<H>(o: Ops<H>, subkey: array<H>, a: seq<H>, max: nat, g: nat)
    requires IsSubkeys(a, max) && max < subkey.Length && 8 * g < max
    modifies subkey
    ensures GroupEmitted(o, a, max, g, subkey[..])
    ensures forall j | 0 <= j < subkey.Length && !(8 * g + 2 <= j < 8 * g + 10 && j < max) :: subkey[j] == old(subkey[j])
  {
    var b := 8 * g;
    subkey[b+2] := if g == 0 then a[b+3] else o.xor(o.absorb(a[b-1], a[b+1]), a[b+3]);
    subkey[b+3] := o.xor(a[b+2], a[b+4]);
    subkey[b+4] := o.xor(a[b+3], a[b+5]);
    subkey[b+5] := o.xor(a[b+4], a[b+6]);
    subkey[b+6] := o.xor(a[b+5], a[b+7]);
    if b + 8 == max {
      subkey[b+7] := a[b+6];
    } else {
      subkey[b+7] := o.xor(a[b+6], o.absorb(a[b+10], a[b+8]));
      subkey[b+8] := a[b+8];
      subkey[b+9] := a[b+9];
    }
  }

  ghost predicate GroupsEmitted<H>(o: Ops<H>, a: seq<H>, max: nat, n: nat, t: seq<H>)
    requires IsSubkeys(a, max) && 8 * n <= max < |t|
  {
    forall g | 0 <= g < n :: GroupEmitted(o, a, max, g, t)
  }

  lemma TableEmitted<H>(o: Ops<H>, a: seq<H>, max: nat, t: seq<H>)
    requires IsSubkeys(a, max) && max < |t| && GroupsEmitted(o, a, max, max / 8, t)
    requires t[0] == o.xor(a[0], a[2]) && t[max] == o.xor(a[max], a[max-1])
    ensures forall j | 0 <= j <= max && j != 1 :: t[j] == Emitted(o, a, max, j)
  {
    forall j | 2 <= j < max
      ensures t[j] == Emitted(o, a, max, j)
    {
      GroupEmittedEntries(o, a, max, (j - 2) / 8, t, j);
    }
  }

  lemma GroupKept<H>(o: Ops<H>, a: seq<H>, max: nat, g: nat, t: seq<H>, t': seq<H>)
    requires IsSubkeys(a, max) && 8 * g < max < |t| == |t'| && GroupEmitted(o, a, max, g, t)
    requires forall j | 8 * g + 2 <= j < 8 * g + 10 && j < max :: t'[j] == t[j]
    ensures GroupEmitted(o, a, max, g, t')
  {
  }

  /** The next group's entries leave the earlier groups' entries alone. */
  method EmitNext<H>(o: Ops<H>, subkey: array<H>, a: seq<H>, max: nat, g: nat)
    requires IsSubkeys(a, max) && max < subkey.Length && 8 * g < max
    requires GroupsEmitted(o, a, max, g, subkey[..])
    modifies subkey
    ensures GroupsEmitted(o, a, max, g + 1, subkey[..])
    ensures subkey[0] == old(subkey[0])
  {
    ghost var t := subkey[..];
    EmitGroup(o, subkey, a, max, g);
    forall g' | 0 <= g' < g
      ensures GroupEmitted(o, a, max, g', subkey[..])
    {
      GroupKept(o, a, max, g', t, subkey[..]);
    }
  }

  /** Writes the table: a round adds its key after the F-function, so an entry is the sum of two subkeys. */
  method EmitTable<H>(o: Ops<H>, subkey: array<H>, a: seq<H>, max: nat)
    requires IsSubkeys(a, max) && max < subkey.Length
    modifies subkey
    ensures forall j | 0 <= j <= max && j != 1 :: subkey[j] == Emitted(o, a, max, j)
  {
    subkey[0] := o.xor(a[0], a[2]);
    EmitNext(o, subkey, a, max, 0);
    EmitNext(o, subkey, a, max, 1);
    EmitNext(o, subkey, a, max, 2);
    if max == 32 {
      EmitNext(o, subkey, a, max, 3);
    }
    ghost var t := subkey[..];
    subkey[max] := o.xor(a[max], a[max-1]);
    forall g | 0 <= g < max / 8
      ensures GroupEmitted(o, a, max, g, subkey[..])
    {
      GroupKept(o, a, max, g, t, subkey[..]);
    }
    TableEmitted(o, a, max, subkey[..]);
  }

  /** Six statements of the loop body. */
  method UndoSix<H>(o: Ops<H>, subkey: array<H>, i: nat)
    requires i + 5 < subkey.Length
    modifies subkey
    ensures forall j | 0 <= j < subkey.Length ::
              subkey[j] == if i <= j < i + 6 then o.unspread(old(subkey[j])) else old(subkey[j])
  {
    subkey[i] := o.unspread(subkey[i]);
    subkey[i+1] := o.unspread(subkey[i+1]);
    subkey[i+2] := o.unspread(subkey[i+2]);
    subkey[i+3] := o.unspread(subkey[i+3]);
    subkey[i+4] := o.unspread(subkey[i+4]);
    subkey[i+5] := o.unspread(subkey[i+5]);
  }

  /** Undoes on every round subkey the second half of the P-layer, which the round leaves out. */
  method UndoLastHalfOfP<H>(o: Ops<H>, subkey: array<H>, max: nat)
    requires IsTable(subkey[..], max)
    modifies subkey
    ensures forall j | 0 <= j < subkey.Length ::
              subkey[j] == if IsRound(max, j) then o.unspread(old(subkey[j])) else old(subkey[j])
  {
    var i := 2;
    while i < max
      invariant i % 8 == 2 && 2 <= i <= max + 2
      invariant forall j | 0 <= j < subkey.Length ::
                  subkey[j] == if j < i && IsRound(max, j) then o.unspread(old(subkey[j])) else old(subkey[j])
    {
      UndoSix(o, subkey, i);
      i := i + 8;
    }
  }

  /** The source's setup builds the table of the raw subkeys it was given. */
  method SetupTail<H(!new)>(o: Ops<H>, subkey: array<H>, sub: array<H>, max: nat)
    requires Lawful(o)
    requires IsSubkeys(sub[..], max) && max < subkey.Length && subkey != sub
    modifies sub, subkey
    ensures IsTableOf(o, subkey[..], old(sub[..]), max)
  {
    ghost var s := sub[..];
    AbsorbKw2(o, sub, max);
    AbsorbKw4(o, sub, max, s);
    var a := sub[..];
    EmitTable(o, subkey, a, max);
    UndoLastHalfOfP(o, subkey, max);
    forall j | 0 <= j <= max && j != 1
      ensures subkey[..][j] == Entry(o, s, max, j)
    {
      AbsorptionTelescopes(o, s, a, max, j);
    }
  }

  // ---------------------------------------------------------------------------
  // camellia_do_encrypt and camellia_do_decrypt
  // ---------------------------------------------------------------------------

  ghost function IoBlock<H>(io: array<H>): Block<H>
    requires io.Length == 2
    reads io
  {
    Block(io[0], io[1])
  }

  /** Two CAMELLIA_ROUNDSM invocations: io[0] into io[1], then io[1] into io[0]. */
  method RoundPair<H>(o: Ops<H>, io: array<H>, k: H, k': H)
    requires io.Length == 2
    modifies io
    ensures IoBlock(io) == TwoMasks(o, old(IoBlock(io)), k, k')
  {
    io[1] := o.xor(io[1], o.mask(io[0], k));
    io[0] := o.xor(io[0], o.mask(io[1], k'));
  }

  /** CAMELLIA_FLS */
  method FLS<H>(o: Ops<H>, io: array<H>, k: H, k': H)
    requires io.Length == 2
    modifies io
    ensures IoBlock(io) == FLLayer(o, old(IoBlock(io)), k, k')
  {
    io[1] := o.flInv(io[1], k');
    io[0] := o.fl(io[0], k);
  }

  method EncryptRounds<H>(o: Ops<H>, subkey: array<H>, io: array<H>, i: nat)
    requires io.Length == 2 && i + 7 < subkey.Length && io != subkey
    modifies io
    ensures IoBlock(io) == Rounds(o, subkey[..], old(IoBlock(io)), i)
  {
    RoundPair(o, io, subkey[i+2], subkey[i+3]);
    RoundPair(o, io, subkey[i+4], subkey[i+5]);
    RoundPair(o, io, subkey[i+6], subkey[i+7]);
  }

  method DecryptRounds<H>(o: Ops<H>, subkey: array<H>, io: array<H>, i: nat)
    requires io.Length == 2 && i + 7 < subkey.Length && io != subkey
    modifies io
    ensures IoBlock(io) == RoundsBack(o, subkey[..], old(IoBlock(io)), i)
  {
    RoundPair(o, io, subkey[i+7], subkey[i+6]);
    RoundPair(o, io, subkey[i+5], subkey[i+4]);
    RoundPair(o, io, subkey[i+3], subkey[i+2]);
  }

  method DoEncrypt<H>(o: Ops<H>, subkey: array<H>, io: array<H>, max: nat)
    requires IsTable(subkey[..], max) && io.Length == 2 && io != subkey
    modifies io
    ensures Swap(IoBlock(io)) == TableEncrypt(o, subkey[..], max, old(IoBlock(io)))
  {
    hide Rounds, FLLayer;
    io[0] := o.xor(io[0], subkey[0]);
    ghost var d := IoBlock(io);
    EncryptRounds(o, subkey, io, 0);
    assert IoBlock(io) == EncryptGroups(o, subkey[..], d, 1);
    FLS(o, io, subkey[8], subkey[9]);
    EncryptRounds(o, subkey, io, 8);
    assert IoBlock(io) == EncryptGroups(o, subkey[..], d, 2);
    FLS(o, io, subkey[16], subkey[17]);
    EncryptRounds(o, subkey, io, 16);
    assert IoBlock(io) == EncryptGroups(o, subkey[..], d, 3);
    if max == 32 {
      FLS(o, io, subkey[24], subkey[25]);
      EncryptRounds(o, subkey, io, 24);
    }
    assert IoBlock(io) == EncryptGroups(o, subkey[..], d, max / 8);
    io[1] := o.xor(io[1], subkey[max]);
  }

  method DoDecrypt<H>(o: Ops<H>, subkey: array<H>, io: array<H>, max: nat)
    requires IsTable(subkey[..], max) && io.Length == 2 && io != subkey
    modifies io
    ensures Swap(IoBlock(io)) == TableDecrypt(o, subkey[..], max, old(IoBlock(io)))
  {
    hide RoundsBack, FLLayer;
    io[0] := o.xor(io[0], subkey[max]);
    ghost var t := subkey[..];
    ghost var d := IoBlock(io);
    if max == 32 {
      DecryptRounds(o, subkey, io, 24);
      FLS(o, io, subkey[25], subkey[24]);
      DecryptStep(o, t, d, 4);
    }
    ghost var d3 := IoBlock(io);
    DecryptRounds(o, subkey, io, 16);
    FLS(o, io, subkey[17], subkey[16]);
    DecryptStep(o, t, d3, 3);
    ghost var d2 := IoBlock(io);
    DecryptRounds(o, subkey, io, 8);
    FLS(o, io, subkey[9], subkey[8]);
    DecryptStep(o, t, d2, 2);
    ghost var d1 := IoBlock(io);
    DecryptRounds(o, subkey, io, 0);
    assert IoBlock(io) == DecryptGroups(o, t, d1, 1);
    io[1] := o.xor(io[1], subkey[0]);
  }

  lemma DecryptStep<H>(o: Ops<H>, t: seq<H>, d: Block<H>, g: nat)
    requires 2 <= g && 8 * g <= |t|
    ensures DecryptGroups(o, t, d, g)
         == DecryptGroups(o, t, FLLayer(o, RoundsBack(o, t, d, 8*g-8), t[8*g-7], t[8*g-8]), g - 1)
  {
    hide RoundsBack, FLLayer;
  }
}
