/** Partial completion of a request: blk_update_request and req_bio_endio, for requests other
    than the barrier proxy and discards. */
module Completion {

  datatype Vec = Vec(page: nat, offset: nat, len: nat)

  /** What is left of a bio: its vectors from bi_idx on, bi_size and bi_sector. */
  datatype Bio = Bio(id: nat, vecs: seq<Vec>, size: nat, sector: nat)

  const SECTOR: nat := 512

  function Lens(vs: seq<Vec>): nat {
    if vs == [] then 0 else vs[0].len + Lens(vs[1..])
  }

  function Bytes(bios: seq<Bio>): nat {
    if bios == [] then 0 else bios[0].size + Bytes(bios[1..])
  }

  /** A bio with data, in whole sectors. */
  ghost predicate BioOk(b: Bio) {
    && b.size == Lens(b.vecs)
    && b.size > 0
    && b.size % SECTOR == 0
    && forall v | v in b.vecs :: v.len > 0
  }

  ghost predicate ChainOk(bios: seq<Bio>) {
    forall b | b in bios :: BioOk(b)
  }

  // ---------------------------------------------------------------------------
  // What is left after n bytes
  // ---------------------------------------------------------------------------

  function AdvanceVecs(vs: seq<Vec>, n: nat): seq<Vec>
    requires n < Lens(vs)
  {
    if n >= vs[0].len then AdvanceVecs(vs[1..], n - vs[0].len)
    else [Vec(vs[0].page, vs[0].offset + n, vs[0].len - n)] + vs[1..]
  }

  function AdvanceBio(b: Bio, n: nat): Bio
    requires n < b.size && b.size == Lens(b.vecs)
  {
    Bio(b.id, AdvanceVecs(b.vecs, n), b.size - n, b.sector + n / SECTOR)
  }

  ghost function Advance(bios: seq<Bio>, n: nat): seq<Bio>
    requires ChainOk(bios)
  {
    if bios == [] then []
    else
      assert BioOk(bios[0]);
      if n >= bios[0].size then Advance(bios[1..], n - bios[0].size)
      else [AdvanceBio(bios[0], n)] + bios[1..]
  }

  /** The bios that n bytes end. */
  ghost function Ended(bios: seq<Bio>, n: nat): seq<nat> {
    if bios == [] || n < bios[0].size then [] else [bios[0].id] + Ended(bios[1..], n - bios[0].size)
  }

  // ---------------------------------------------------------------------------
  // Advancing composes
  // ---------------------------------------------------------------------------

  lemma {:induction false} AdvancedVecs(vs: seq<Vec>, n: nat)
    requires n < Lens(vs) && forall v | v in vs :: v.len > 0
    ensures Lens(AdvanceVecs(vs, n)) == Lens(vs) - n
    ensures forall v | v in AdvanceVecs(vs, n) :: v.len > 0
    decreases |vs|
  {
    assert forall v | v in vs[1..] :: v in vs;
    if n >= vs[0].len {
      AdvancedVecs(vs[1..], n - vs[0].len);
    } else {
      assert ([Vec(vs[0].page, vs[0].offset + n, vs[0].len - n)] + vs[1..])[1..] == vs[1..];
    }
  }

  lemma {:induction false} VecsCompose(vs: seq<Vec>, n: nat, m: nat)
    requires n + m < Lens(vs) && forall v | v in vs :: v.len > 0
    ensures n < Lens(vs) && m < Lens(AdvanceVecs(vs, n))
    ensures AdvanceVecs(AdvanceVecs(vs, n), m) == AdvanceVecs(vs, n + m)
    decreases |vs|
  {
    AdvancedVecs(vs, n);
    assert forall v | v in vs[1..] :: v in vs;
    if n >= vs[0].len {
      VecsCompose(vs[1..], n - vs[0].len, m);
    } else {
      var w := [Vec(vs[0].page, vs[0].offset + n, vs[0].len - n)] + vs[1..];
      assert w[1..] == vs[1..];
    }
  }

  lemma WholeSectors(a: nat, b: nat)
    requires a % SECTOR == 0
    ensures (a + b) / SECTOR == a / SECTOR + b / SECTOR
  {
  }

  lemma AdvancedBio(b: Bio, n: nat)
    requires BioOk(b) && n < b.size && n % SECTOR == 0
    ensures BioOk(AdvanceBio(b, n))
  {
    AdvancedVecs(b.vecs, n);
  }

  lemma BioCompose(b: Bio, n: nat, m: nat)
    requires BioOk(b) && n + m < b.size && n % SECTOR == 0
    ensures n < b.size && m < AdvanceBio(b, n).size == Lens(AdvanceBio(b, n).vecs)
    ensures AdvanceBio(AdvanceBio(b, n), m) == AdvanceBio(b, n + m)
  {
    AdvancedVecs(b.vecs, n);
    VecsCompose(b.vecs, n, m);
    WholeSectors(n, m);
  }

  lemma {:induction false} ChainTail(bios: seq<Bio>)
    requires ChainOk(bios) && bios != []
    ensures ChainOk(bios[1..]) && BioOk(bios[0])
  {
    assert forall b | b in bios[1..] :: b in bios;
  }

  /** What is left is in order, and is empty exactly when all bytes are consumed. */
  lemma {:induction false} Advanced(bios: seq<Bio>, n: nat)
    requires ChainOk(bios) && n % SECTOR == 0
    ensures ChainOk(Advance(bios, n))
    ensures Bytes(Advance(bios, n)) == if n >= Bytes(bios) then 0 else Bytes(bios) - n
    ensures Advance(bios, n) == [] <==> n >= Bytes(bios)
    decreases |bios|
  {
    if bios != [] {
      ChainTail(bios);
      if n >= bios[0].size {
        Advanced(bios[1..], n - bios[0].size);
      } else {
        AdvancedBio(bios[0], n);
        var rest := [AdvanceBio(bios[0], n)] + bios[1..];
        assert rest[1..] == bios[1..];
        assert forall b | b in rest :: b == AdvanceBio(bios[0], n) || b in bios[1..];
      }
    }
  }

  /** A whole bio is done. */
  lemma EndedFirst(bios: seq<Bio>, n: nat)
    requires ChainOk(bios) && bios != [] && n >= bios[0].size && n % SECTOR == 0
    ensures Ended(bios, n) == [bios[0].id] + Ended(bios[1..], n - bios[0].size)
    ensures ChainOk(bios[1..]) && Advance(bios, n) == Advance(bios[1..], n - bios[0].size)
    ensures Bytes(bios) == bios[0].size + Bytes(bios[1..]) && (n - bios[0].size) % SECTOR == 0
  {
    ChainTail(bios);
  }

  /** Completing n and then m bytes leaves the same chain as completing n + m. */
  lemma {:induction false} CompletionComposes(bios: seq<Bio>, n: nat, m: nat)
    requires ChainOk(bios) && n % SECTOR == 0 && m % SECTOR == 0
    ensures ChainOk(Advance(bios, n))
    ensures Advance(Advance(bios, n), m) == Advance(bios, n + m)
    ensures Ended(bios, n) + Ended(Advance(bios, n), m) == Ended(bios, n + m)
    decreases |bios|
  {
    hide Advance, Ended, BioOk, Bytes;
    Advanced(bios, n);
    if bios == [] {
      NoneLeft(n);
      NoneLeft(m);
      NoneLeft(n + m);
    } else if n >= bios[0].size {
      EndedFirst(bios, n);
      EndedFirst(bios, n + m);
      CompletionComposes(bios[1..], n - bios[0].size, m);
    } else {
      ComposeInside(bios, n, m);
    }
  }

  lemma ComposeInside(bios: seq<Bio>, n: nat, m: nat)
    requires ChainOk(bios) && bios != [] && n < bios[0].size && n % SECTOR == 0
    requires ChainOk(Advance(bios, n))
    ensures Advance(Advance(bios, n), m) == Advance(bios, n + m)
    ensures Ended(bios, n) + Ended(Advance(bios, n), m) == Ended(bios, n + m)
  {
    ChainTail(bios);
    var b := AdvanceBio(bios[0], n);
    var rest := Advance(bios, n);
    assert rest == [b] + bios[1..] && rest[1..] == bios[1..];
    if n + m < bios[0].size {
      BioCompose(bios[0], n, m);
    }
  }

  // ---------------------------------------------------------------------------
  // What is left, byte for byte
  // ---------------------------------------------------------------------------

  /** A byte of a chain: whose it is, where it is in memory, and where on the disk. */
  datatype Cell = Cell(id: nat, page: nat, offset: nat, position: nat)

  /** The bytes of some vectors of bio `id`, from position `at` of the disk on. */
  ghost function VecCells(id: nat, vs: seq<Vec>, at: nat): seq<Cell> {
    if vs == [] then []
    else seq(vs[0].len, i requires 0 <= i < vs[0].len => Cell(id, vs[0].page, vs[0].offset + i, at + i))
         + VecCells(id, vs[1..], at + vs[0].len)
  }

  ghost function Cells(bios: seq<Bio>): seq<Cell> {
    if bios == [] then [] else VecCells(bios[0].id, bios[0].vecs, bios[0].sector * SECTOR) + Cells(bios[1..])
  }

  lemma {:induction false} VecCellsLength(id: nat, vs: seq<Vec>, at: nat)
    ensures |VecCells(id, vs, at)| == Lens(vs)
  {
    if vs != [] {
      VecCellsLength(id, vs[1..], at + vs[0].len);
    }
  }

  lemma {:induction false} RestOfVecs(id: nat, vs: seq<Vec>, n: nat, at: nat)
    requires n < Lens(vs)
    ensures |VecCells(id, vs, at)| == Lens(vs)
    ensures VecCells(id, AdvanceVecs(vs, n), at + n) == VecCells(id, vs, at)[n..]
    decreases |vs|
  {
    VecCellsLength(id, vs, at);
    var len := vs[0].len;
    var rest := VecCells(id, vs[1..], at + len);
    if n >= len {
      RestOfVecs(id, vs[1..], n - len, at + len);
      assert VecCells(id, vs, at)[n..] == rest[n - len..];
    } else {
      var v := Vec(vs[0].page, vs[0].offset + n, len - n);
      assert ([v] + vs[1..])[1..] == vs[1..];
      assert VecCells(id, [v] + vs[1..], at + n) == VecCells(id, vs, at)[n..];
    }
  }

  lemma RestOfBio(b: Bio, n: nat, tail: seq<Cell>)
    requires BioOk(b) && n < b.size && n % SECTOR == 0
    ensures var all, b' := VecCells(b.id, b.vecs, b.sector * SECTOR), AdvanceBio(b, n);
            n <= |all| && VecCells(b'.id, b'.vecs, b'.sector * SECTOR) + tail == (all + tail)[n..]
  {
    RestOfVecs(b.id, b.vecs, n, b.sector * SECTOR);
    assert (b.sector + n / SECTOR) * SECTOR == b.sector * SECTOR + n;
  }

  /** Completing n bytes leaves exactly the bytes behind them: the same memory, for the same places
      on the disk. */
  lemma {:induction false} LeavesTheRest(bios: seq<Bio>, n: nat)
    requires ChainOk(bios) && n % SECTOR == 0
    ensures |Cells(bios)| == Bytes(bios)
    ensures Cells(Advance(bios, n)) == if n < Bytes(bios) then Cells(bios)[n..] else []
    decreases |bios|
  {
    if bios != [] {
      ChainTail(bios);
      var b := bios[0];
      VecCellsLength(b.id, b.vecs, b.sector * SECTOR);
      if n >= b.size {
        LeavesTheRest(bios[1..], n - b.size);
      } else {
        LeavesTheRest(bios[1..], 0);
        var rest := [AdvanceBio(b, n)] + bios[1..];
        assert rest[1..] == bios[1..];
        RestOfBio(b, n, Cells(bios[1..]));
      }
    }
  }

  /** The bios follow each other on the disk. */
  ghost predicate OnDisk(bios: seq<Bio>, sector: nat) {
    bios == [] || (bios[0].sector == sector && OnDisk(bios[1..], sector + bios[0].size / SECTOR))
  }

  /** What is left of a chain in one piece starts as many sectors on. */
  lemma {:induction false} StaysOnDisk(bios: seq<Bio>, sector: nat, n: nat)
    requires ChainOk(bios) && n % SECTOR == 0 && OnDisk(bios, sector)
    ensures OnDisk(Advance(bios, n), sector + n / SECTOR)
    decreases |bios|
  {
    if bios != [] {
      ChainTail(bios);
      var b := bios[0];
      if n >= b.size {
        StaysOnDisk(bios[1..], sector + b.size / SECTOR, n - b.size);
        WholeSectors(b.size, n - b.size);
      } else {
        var rest := [AdvanceBio(b, n)] + bios[1..];
        assert rest[1..] == bios[1..];
        WholeSectors(n, b.size - n);
      }
    }
  }

  // ---------------------------------------------------------------------------
  // blk_update_request
  // ---------------------------------------------------------------------------

  lemma {:induction false} LensSplit(vs: seq<Vec>, k: nat)
    requires k <= |vs|
    ensures Lens(vs) == Lens(vs[..k]) + Lens(vs[k..])
    decreases k
  {
    if k > 0 {
      LensSplit(vs[1..], k - 1);
      assert vs[1..][..k-1] == vs[..k][1..] && vs[1..][k-1..] == vs[k..];
    }
  }

  lemma LensNext(vs: seq<Vec>, k: nat)
    requires k < |vs|
    ensures Lens(vs[..k+1]) == Lens(vs[..k]) + vs[k].len
  {
    LensSplit(vs[..k+1], k);
    assert vs[..k+1][..k] == vs[..k] && vs[..k+1][k..] == [vs[k]];
    assert [vs[k]][1..] == [];
  }

  /** k whole vectors and part of the next. */
  lemma {:induction false} AdvanceAt(vs: seq<Vec>, k: nat, n: nat)
    requires k < |vs| && n < vs[k].len
    ensures Lens(vs[..k]) + n < Lens(vs)
    ensures AdvanceVecs(vs, Lens(vs[..k]) + n) == [Vec(vs[k].page, vs[k].offset + n, vs[k].len - n)] + vs[k+1..]
    decreases k
  {
    if k == 0 {
      assert vs[..0] == [];
    } else {
      assert vs[..k][1..] == vs[1..][..k-1];
      AdvanceAt(vs[1..], k - 1, n);
      assert vs[1..][k..] == vs[k+1..];
    }
  }

  /** Where the loop is in the first bio. */
  ghost predicate Within(bios: seq<Bio>, nextIdx: nat, bioNbytes: nat, nr: nat) {
    && (bios == [] ==> nextIdx == 0 && bioNbytes == 0)
    && (bios != [] ==>
          && nextIdx <= |bios[0].vecs|
          && bioNbytes == Lens(bios[0].vecs[..nextIdx])
          && (nextIdx > 0 ==> bioNbytes + nr < bios[0].size))
    && (nextIdx == 0 ==> bioNbytes == 0)
  }

  lemma FromStart(bios: seq<Bio>)
    ensures forall nr: nat :: Within(bios, 0, 0, nr)
  {
    if bios != [] {
      assert bios[0].vecs[..0] == [];
    }
  }

  lemma NoneLeft(n: nat)
    ensures Advance([], n) == [] && Ended([], n) == []
  {
  }

  lemma EndedNone(bios: seq<Bio>, n: nat)
    requires bios != [] && n < bios[0].size
    ensures Ended(bios, n) == []
  {
  }

  /** There is a next vector while bytes are left. */
  lemma NextVec(b: Bio, k: nat, nr: nat)
    requires BioOk(b) && k <= |b.vecs| && Lens(b.vecs[..k]) + nr < b.size
    ensures k < |b.vecs| && Lens(b.vecs[..k+1]) == Lens(b.vecs[..k]) + b.vecs[k].len
    ensures b.vecs[k].len > 0
  {
    LensSplit(b.vecs, k);
    LensNext(b.vecs, k);
    assert b.vecs[k] in b.vecs;
  }

  lemma StopsInside(bios: seq<Bio>, k: nat, done: nat)
    requires ChainOk(bios) && bios != [] && Within(bios, k, done, 0)
    ensures k < |bios[0].vecs| && bios[0].vecs[k].len > 0 && done < bios[0].size && Ended(bios, done) == []
  {
    ChainTail(bios);
    NextVec(bios[0], k, 0);
    EndedNone(bios, done);
  }

  /** A struct request with its remaining chain, __data_len and __sector. */
  class Request {
    var bios: seq<Bio>
    var dataLen: nat
    var sector: nat
    var ended: seq<nat>      // bio_endio calls

    constructor (bios: seq<Bio>, sector: nat)
      requires ChainOk(bios)
      ensures Valid() && this.bios == bios && this.sector == sector && this.ended == []
    {
      this.bios, this.dataLen, this.sector, this.ended := bios, Bytes(bios), sector, [];
    }

    /** __data_len is the sum of the bi_size. */
    ghost predicate Valid()
      reads this
    {
      ChainOk(bios) && dataLen == Bytes(bios)
    }

    /** The loop of blk_update_request: whole bios end; in the first that is not done, nextIdx
        whole vectors and nr bytes of the next are.  The test for running out of vectors never
        succeeds. */
    method EndBytes(nrBytes: nat) returns (nextIdx: nat, bioNbytes: nat, nr: nat, total: nat)
      requires Valid() && nrBytes % SECTOR == 0
      modifies `bios, `ended
      ensures ChainOk(bios) && Advance(old(bios), nrBytes) == Advance(bios, bioNbytes)
      ensures ended == old(ended) + Ended(old(bios), nrBytes)
      ensures bios != [] ==>
                && total == nrBytes && nextIdx < |bios[0].vecs| && nr < bios[0].vecs[nextIdx].len
                && bioNbytes == Lens(bios[0].vecs[..nextIdx]) + nr < bios[0].size
                && bioNbytes % SECTOR == 0
                && Bytes(old(bios)) - nrBytes == Bytes(bios) - bioNbytes
    {
      hide Advance, Ended, Bytes, Lens, BioOk, ChainOk;
      ghost var all := bios;
      nextIdx, bioNbytes, nr, total := 0, 0, nrBytes, 0;
      FromStart(bios);
      while bios != []
        invariant ChainOk(bios) && Advance(all, nrBytes) == Advance(bios, bioNbytes + nr)
        invariant ended + Ended(bios, bioNbytes + nr) == old(ended) + Ended(all, nrBytes)
        invariant Bytes(all) - nrBytes == Bytes(bios) - bioNbytes - nr
        invariant total + nr == nrBytes && (bioNbytes + nr) % SECTOR == 0
        invariant Within(bios, nextIdx, bioNbytes, nr)
        decreases |bios|, if bios == [] then 0 else |bios[0].vecs| - nextIdx
      {
        var bio := bios[0];
        ChainTail(bios);
        var nbytes: nat;
        if nr >= bio.size {
          EndedFirst(bios, nr);
          ended := ended + [bio.id];
          bios := bios[1..];
          nbytes, nextIdx, bioNbytes := bio.size, 0, 0;
          FromStart(bios);
        } else {
          NextVec(bio, nextIdx, nr);
          nbytes := bio.vecs[nextIdx].len;
          if nbytes > nr {
            bioNbytes := bioNbytes + nr;
            total := total + nr;
            EndedNone(bios, bioNbytes);
            return;
          }
          nextIdx := nextIdx + 1;
          bioNbytes := bioNbytes + nbytes;
        }
        total := total + nbytes;
        nr := nr - nbytes;
        if bios != [] && nr <= 0 {
          StopsInside(bios, nextIdx, bioNbytes);
          return;
        }
      }
      NoneLeft(bioNbytes + nr);
      NoneLeft(bioNbytes);
    }

    /** blk_update_request: false exactly when all bytes are consumed; otherwise what is left is
        what nrBytes leave, __data_len is its size, and "request botched" does not occur. */
    method Update(nrBytes: nat) returns (more: bool)
      requires Valid() && nrBytes % SECTOR == 0
      modifies this
      ensures Valid() && bios == Advance(old(bios), nrBytes)
      ensures more <==> nrBytes < Bytes(old(bios))
      ensures dataLen == if more then old(dataLen) - nrBytes else 0
      ensures sector == if more then old(sector) + nrBytes / SECTOR else old(sector)
      ensures ended == old(ended) + Ended(old(bios), nrBytes)
      ensures more ==> bios != [] && bios[0].vecs != [] && dataLen >= bios[0].vecs[0].len
      ensures more && OnDisk(old(bios), old(sector)) ==> OnDisk(bios, sector)
      ensures |Cells(old(bios))| == Bytes(old(bios)) && (more ==> Cells(bios) == Cells(old(bios))[nrBytes..])
    {
      hide Cells, OnDisk, Advance, Ended, Bytes, Lens, BioOk, AdvanceVecs;
      ghost var all := bios;
      UpdateLeaves(all, sector, nrBytes);
      if bios == [] {
        return false;
      }
      var nextIdx, bioNbytes, nr, total := EndBytes(nrBytes);
      if bios == [] {
        NoneLeft(bioNbytes);
        dataLen := 0;
        return false;
      }
      Advanced(bios, bioNbytes);
      AdvancedFirst(bios, nextIdx, nr);
      var b := bios[0];
      if bioNbytes > 0 {
        var v := b.vecs[nextIdx];
        var vs := [Vec(v.page, v.offset + nr, v.len - nr)] + b.vecs[nextIdx+1..];
        bios := [Bio(b.id, vs, b.size - bioNbytes, b.sector + bioNbytes / SECTOR)] + bios[1..];
      } else {
        NothingDone(bios);
      }
      dataLen := dataLen - total;
      sector := sector + total / SECTOR;
      FirstVec(bios);
      return true;
    }
  }

  /** What nrBytes leave, in all respects. */
  lemma UpdateLeaves(bios: seq<Bio>, sector: nat, n: nat)
    requires ChainOk(bios) && n % SECTOR == 0
    ensures |Cells(bios)| == Bytes(bios) && (n < Bytes(bios) ==> Cells(Advance(bios, n)) == Cells(bios)[n..])
    ensures OnDisk(bios, sector) ==> OnDisk(Advance(bios, n), sector + n / SECTOR)
    ensures ChainOk(Advance(bios, n)) && (Advance(bios, n) == [] <==> n >= Bytes(bios))
    ensures Bytes(Advance(bios, n)) == if n >= Bytes(bios) then 0 else Bytes(bios) - n
    ensures bios == [] ==> Advance(bios, n) == [] && Ended(bios, n) == []
  {
    hide Cells, OnDisk, Advance, Ended, Bytes, Lens, BioOk;
    LeavesTheRest(bios, n);
    if OnDisk(bios, sector) {
      StaysOnDisk(bios, sector, n);
    }
    Advanced(bios, n);
    if bios == [] {
      NoneLeft(n);
    }
  }

  /** The first bio after k whole vectors and n bytes of the next. */
  lemma AdvancedFirst(bios: seq<Bio>, k: nat, n: nat)
    requires ChainOk(bios) && bios != [] && k < |bios[0].vecs| && n < bios[0].vecs[k].len
    requires Lens(bios[0].vecs[..k]) + n < bios[0].size
    ensures var b := bios[0];
            var v, done := b.vecs[k], Lens(b.vecs[..k]) + n;
            var vs := [Vec(v.page, v.offset + n, v.len - n)] + b.vecs[k+1..];
            Advance(bios, done) == [Bio(b.id, vs, b.size - done, b.sector + done / SECTOR)] + bios[1..]
  {
    hide Lens, AdvanceVecs;
    ChainTail(bios);
    AdvanceAt(bios[0].vecs, k, n);
  }

  lemma NothingDone(bios: seq<Bio>)
    requires ChainOk(bios) && bios != []
    ensures Advance(bios, 0) == bios
  {
    ChainTail(bios);
    var vs := bios[0].vecs;
    assert vs != [] && vs[0] in vs;
    assert [vs[0]] + vs[1..] == vs;
    assert [bios[0]] + bios[1..] == bios;
  }

  lemma FirstVec(bios: seq<Bio>)
    requires ChainOk(bios) && bios != []
    ensures bios[0].vecs != [] && Bytes(bios) >= bios[0].vecs[0].len
  {
    ChainTail(bios);
  }
}
