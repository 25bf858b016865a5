/** The elevator's merge hash and the bio chains of mergeable requests. */
module MergeIndex {
  import opened Common

  /** A bio: identity, first sector, and how many sectors. */
  datatype Bio = Bio(id: nat, sector: int, sectors: nat)

  /** A request of the scheduler: its chain, __sector, the sectors of __data_len, and whether
      rq_mergeable holds and it is on the hash. */
  datatype Req = Req(bios: seq<Bio>, sector: int, sectors: nat, mergeable: bool, hashed: bool)

  /** Requests by identity, and the hash buckets. */
  datatype State = State(reqs: map<nat, Req>, buckets: map<nat, seq<nat>>)

  /** rq_hash_key */
  function End(r: Req): int {
    r.sector + r.sectors
  }

  /** ELV_HASH_FN: any function of the sector. */
  type Hash = int -> nat

  function Bucket(bs: map<nat, seq<nat>>, k: nat): seq<nat> {
    if k in bs then bs[k] else []
  }

  function Without(s: seq<nat>, x: nat): seq<nat> {
    if s == [] then [] else if s[0] == x then Without(s[1..], x) else [s[0]] + Without(s[1..], x)
  }

  // ---------------------------------------------------------------------------
  // Hash operations
  // ---------------------------------------------------------------------------

  function SetHashed(s: State, id: nat, on: bool): map<nat, Req>
    requires id in s.reqs
  {
    s.reqs[id := s.reqs[id].(hashed := on)]
  }

  /** __elv_rqhash_del from the bucket it was put in */
  function HashDel(s: State, k: nat, id: nat): State
    requires id in s.reqs
  {
    State(SetHashed(s, id, false), s.buckets[k := Without(Bucket(s.buckets, k), id)])
  }

  /** elv_rqhash_add */
  function HashAdd(h: Hash, s: State, id: nat): State
    requires id in s.reqs
  {
    var k := h(End(s.reqs[id]));
    State(SetHashed(s, id, true), s.buckets[k := [id] + Bucket(s.buckets, k)])
  }

  // ---------------------------------------------------------------------------
  // Invariants
  // ---------------------------------------------------------------------------

  /** The request is hashed in this bucket. */
  ghost predicate HashedIn(h: Hash, reqs: map<nat, Req>, id: nat, k: nat) {
    id in reqs && reqs[id].hashed && h(End(reqs[id])) == k
  }

  /** A bucket holds exactly the hashed requests whose current end sector belongs there. */
  ghost predicate BucketOk(h: Hash, reqs: map<nat, Req>, k: nat, b: seq<nat>) {
    NoDup(b) && forall id :: id in b <==> HashedIn(h, reqs, id, k)
  }

  ghost predicate HashOk(h: Hash, s: State) {
    forall k: nat :: BucketOk(h, s.reqs, k, Bucket(s.buckets, k))
  }

  function Sectors(bios: seq<Bio>): nat {
    if bios == [] then 0 else Sectors(bios[..|bios|-1]) + bios[|bios|-1].sectors
  }

  /** The bios are one ascending run of sectors that starts at `from`. */
  ghost predicate Run(bios: seq<Bio>, from: int) {
    forall i | 0 <= i < |bios| :: bios[i].sector == from + Sectors(bios[..i])
  }

  ghost predicate ChainOk(r: Req) {
    r.bios != [] && Run(r.bios, r.sector) && r.sectors == Sectors(r.bios)
  }

  ghost predicate ChainsOk(reqs: map<nat, Req>) {
    forall id | id in reqs :: ChainOk(reqs[id])
  }

  ghost predicate Owns(reqs: map<nat, Req>, id: nat, b: Bio) {
    id in reqs && b in reqs[id].bios
  }

  /** No bio is on two chains, or twice on one. */
  ghost predicate OwnedOnce(reqs: map<nat, Req>) {
    && (forall i: nat, j: nat, b | Owns(reqs, i, b) && Owns(reqs, j, b) :: i == j)
    && (forall id | id in reqs :: Distinct(reqs[id].bios))
  }

  ghost predicate Distinct(bios: seq<Bio>) {
    forall i, j | 0 <= i < j < |bios| :: bios[i] != bios[j]
  }

  ghost predicate Valid(h: Hash, s: State) {
    HashOk(h, s) && ChainsOk(s.reqs) && OwnedOnce(s.reqs)
  }

  ghost predicate Held(reqs: map<nat, Req>, b: Bio) {
    exists id: nat :: Owns(reqs, id, b)
  }

  // ---------------------------------------------------------------------------
  // The hash
  // ---------------------------------------------------------------------------

  lemma {:induction false} WithoutHas(s: seq<nat>, x: nat)
    ensures forall y :: y in Without(s, x) <==> y in s && y != x
    ensures NoDup(s) ==> NoDup(Without(s, x))
    decreases |s|
  {
    if s != [] {
      WithoutHas(s[1..], x);
      assert s == [s[0]] + s[1..];
      if NoDup(s) {
        var w := Without(s[1..], x);
        assert s[0] !in s[1..];
        forall i, j | 0 <= i < j < |[s[0]] + w| ensures ([s[0]] + w)[i] != ([s[0]] + w)[j] {
          assert i == 0 ==> w[j-1] in w;
        }
      }
    }
  }

  /** Another request's change does not concern a bucket. */
  lemma BucketSame(h: Hash, reqs: map<nat, Req>, k: nat, b: seq<nat>, id: nat, r: Req)
    requires BucketOk(h, reqs, k, b) && id in reqs
    requires HashedIn(h, reqs, id, k) <==> r.hashed && h(End(r)) == k
    ensures BucketOk(h, reqs[id := r], k, b)
  {
    hide NoDup, End;
    forall x ensures x in b <==> HashedIn(h, reqs[id := r], x, k) {
      assert x != id ==> (HashedIn(h, reqs[id := r], x, k) <==> HashedIn(h, reqs, x, k));
    }
  }

  /** Taking a request off the hash. */
  lemma HashDelKeeps(h: Hash, s: State, id: nat, k: nat)
    requires HashOk(h, s) && id in s.reqs && h(End(s.reqs[id])) == k
    ensures HashOk(h, HashDel(s, k, id))
  {
    hide NoDup, End;
    var s' := HashDel(s, k, id);
    forall j: nat ensures BucketOk(h, s'.reqs, j, Bucket(s'.buckets, j)) {
      assert BucketOk(h, s.reqs, j, Bucket(s.buckets, j));
      var r := s.reqs[id].(hashed := false);
      SameEnd(s.reqs[id], false);
      if j == k {
        var b := Bucket(s.buckets, k);
        WithoutHas(b, id);
        forall x ensures x in Without(b, id) <==> HashedIn(h, s'.reqs, x, k) {
          assert x != id ==> (HashedIn(h, s'.reqs, x, k) <==> HashedIn(h, s.reqs, x, k));
        }
      } else {
        BucketSame(h, s.reqs, j, Bucket(s.buckets, j), id, r);
      }
    }
  }

  lemma SameEnd(r: Req, on: bool)
    ensures End(r.(hashed := on)) == End(r)
  {
  }

  /** Putting a request on the hash under its current end. */
  lemma HashAddKeeps(h: Hash, s: State, id: nat)
    requires HashOk(h, s) && id in s.reqs && !s.reqs[id].hashed
    ensures HashOk(h, HashAdd(h, s, id))
  {
    hide End;
    var s', k := HashAdd(h, s, id), h(End(s.reqs[id]));
    forall j: nat ensures BucketOk(h, s'.reqs, j, Bucket(s'.buckets, j)) {
      assert BucketOk(h, s.reqs, j, Bucket(s.buckets, j));
      SameEnd(s.reqs[id], true);
      if j == k {
        var b := Bucket(s.buckets, k);
        assert id !in b;
        forall x ensures x in [id] + b <==> HashedIn(h, s'.reqs, x, k) {
          assert x != id ==> (HashedIn(h, s'.reqs, x, k) <==> HashedIn(h, s.reqs, x, k));
        }
        forall p, q | 0 <= p < q < |[id] + b| ensures ([id] + b)[p] != ([id] + b)[q] {
          assert p == 0 ==> b[q-1] in b;
        }
      } else {
        BucketSame(h, s.reqs, j, Bucket(s.buckets, j), id, s.reqs[id].(hashed := true));
      }
    }
  }

  /** A change that keeps the end sector, or is made off the hash, leaves the buckets right. */
  lemma HashSame(h: Hash, s: State, id: nat, r: Req)
    requires HashOk(h, s) && id in s.reqs
    requires r.hashed == s.reqs[id].hashed && (r.hashed ==> End(r) == End(s.reqs[id]))
    ensures HashOk(h, s.(reqs := s.reqs[id := r]))
  {
    hide BucketOk, End;
    forall k: nat ensures BucketOk(h, s.reqs[id := r], k, Bucket(s.buckets, k)) {
      assert BucketOk(h, s.reqs, k, Bucket(s.buckets, k));
      BucketSame(h, s.reqs, k, Bucket(s.buckets, k), id, r);
    }
  }

  // ---------------------------------------------------------------------------
  // elv_rqhash_find
  // ---------------------------------------------------------------------------

  /** A mergeable request on the hash that ends at the offset. */
  ghost predicate EndsAt(reqs: map<nat, Req>, id: nat, offset: int) {
    id in reqs && reqs[id].hashed && reqs[id].mergeable && End(reqs[id]) == offset
  }

  /** Only requests that cannot be merged have left the hash. */
  ghost predicate Pruned(reqs: map<nat, Req>, reqs': map<nat, Req>) {
    && reqs'.Keys == reqs.Keys
    && forall id | id in reqs ::
         reqs'[id] == reqs[id] || (!reqs[id].mergeable && reqs'[id] == reqs[id].(hashed := false))
  }

  lemma PrunedStep(reqs: map<nat, Req>, reqs': map<nat, Req>, id: nat)
    requires Pruned(reqs, reqs') && id in reqs && !reqs[id].mergeable
    ensures Pruned(reqs, reqs'[id := reqs'[id].(hashed := false)])
  {
  }

  lemma PrunedEnds(reqs: map<nat, Req>, reqs': map<nat, Req>, id: nat, offset: int)
    requires Pruned(reqs, reqs')
    ensures EndsAt(reqs', id, offset) <==> EndsAt(reqs, id, offset)
  {
  }

  lemma PrunedNone(reqs: map<nat, Req>)
    ensures Pruned(reqs, reqs)
  {
  }

  lemma SameFlags(reqs: map<nat, Req>, reqs': map<nat, Req>, id: nat)
    requires Pruned(reqs, reqs') && id in reqs'
    ensures id in reqs && reqs'[id].mergeable == reqs[id].mergeable && End(reqs'[id]) == End(reqs[id])
  {
  }

  lemma BucketIs(h: Hash, s: State, k: nat)
    requires HashOk(h, s)
    ensures forall j | 0 <= j < |Bucket(s.buckets, k)| ::
              var id := Bucket(s.buckets, k)[j]; id in s.reqs && s.reqs[id].hashed && h(End(s.reqs[id])) == k
    ensures NoDup(Bucket(s.buckets, k))
  {
    hide NoDup;
    var b := Bucket(s.buckets, k);
    assert BucketOk(h, s.reqs, k, b);
    forall j | 0 <= j < |b| ensures HashedIn(h, s.reqs, b[j], k) {
      assert b[j] in b;
    }
  }

  lemma InBucket(h: Hash, s: State, id: nat, offset: int)
    requires HashOk(h, s) && EndsAt(s.reqs, id, offset)
    ensures id in Bucket(s.buckets, h(offset))
  {
    assert BucketOk(h, s.reqs, h(offset), Bucket(s.buckets, h(offset)));
    assert HashedIn(h, s.reqs, id, h(offset));
  }

  // ---------------------------------------------------------------------------
  // elv_try_merge
  // ---------------------------------------------------------------------------

  datatype MergeKind = NoMerge | BackMerge | FrontMerge

  /** elv_try_merge, once elv_rq_merge_ok allows it */
  function TryMerge(r: Req, b: Bio): (k: MergeKind)
    ensures k.BackMerge? ==> b.sector == End(r)
    ensures k.FrontMerge? ==> b.sector + b.sectors == r.sector
    ensures k.NoMerge? ==> b.sector != End(r) && b.sector + b.sectors != r.sector
  {
    if r.sector + r.sectors == b.sector then BackMerge
    else if r.sector - b.sectors == b.sector then FrontMerge
    else NoMerge
  }

  // ---------------------------------------------------------------------------
  // Chains
  // ---------------------------------------------------------------------------

  lemma {:induction false} SectorsConcat(a: seq<Bio>, b: seq<Bio>)
    ensures Sectors(a + b) == Sectors(a) + Sectors(b)
    decreases |b|
  {
    if b == [] {
      assert a + b == a;
    } else {
      SectorsConcat(a, b[..|b|-1]);
      assert (a + b)[..|a + b| - 1] == a + b[..|b|-1];
    }
  }

  lemma SectorsOne(b: Bio)
    ensures Sectors([b]) == b.sectors
  {
    assert [b][..0] == [];
  }

  /** Two runs that meet are one run. */
  lemma RunConcat(a: seq<Bio>, b: seq<Bio>, from: int)
    requires Run(a, from) && Run(b, from + Sectors(a))
    ensures Run(a + b, from)
  {
    forall i | 0 <= i < |a + b| ensures (a + b)[i].sector == from + Sectors((a + b)[..i]) {
      if i < |a| {
        assert (a + b)[..i] == a[..i];
      } else {
        assert (a + b)[..i] == a + b[..i-|a|];
        SectorsConcat(a, b[..i-|a|]);
      }
    }
  }

  lemma RunOne(b: Bio)
    ensures Run([b], b.sector)
  {
    assert [b][..0] == [];
  }

  lemma DistinctConcat(a: seq<Bio>, b: seq<Bio>)
    requires Distinct(a) && Distinct(b) && forall x | x in a :: x !in b
    ensures Distinct(a + b)
  {
    forall i, j | 0 <= i < j < |a + b| ensures (a + b)[i] != (a + b)[j] {
      if i < |a| <= j {
        assert a[i] in a && b[j-|a|] in b;
      }
    }
  }

  lemma DistinctOne(b: Bio)
    ensures Distinct([b])
  {
  }

  function WithBack(r: Req, b: Bio): Req {
    r.(bios := r.bios + [b], sectors := r.sectors + b.sectors)
  }

  function WithFront(r: Req, b: Bio): Req {
    r.(bios := [b] + r.bios, sector := b.sector, sectors := r.sectors + b.sectors)
  }

  function Absorbed(r: Req, n: Req): Req {
    r.(bios := r.bios + n.bios, sectors := r.sectors + n.sectors)
  }

  lemma BackChain(r: Req, b: Bio)
    requires ChainOk(r) && b.sector == End(r)
    ensures ChainOk(WithBack(r, b))
  {
    hide Run, Sectors;
    RunOne(b);
    RunConcat(r.bios, [b], r.sector);
    SectorsOne(b);
    SectorsConcat(r.bios, [b]);
  }

  lemma FrontChain(r: Req, b: Bio)
    requires ChainOk(r) && b.sector + b.sectors == r.sector
    ensures ChainOk(WithFront(r, b)) && End(WithFront(r, b)) == End(r)
  {
    hide Run, Sectors;
    RunOne(b);
    SectorsOne(b);
    RunConcat([b], r.bios, b.sector);
    SectorsConcat([b], r.bios);
  }

  lemma AbsorbedChain(r: Req, n: Req)
    requires ChainOk(r) && ChainOk(n) && End(r) == n.sector
    ensures ChainOk(Absorbed(r, n)) && End(Absorbed(r, n)) == End(n)
  {
    hide Run, Sectors;
    RunConcat(r.bios, n.bios, r.sector);
    SectorsConcat(r.bios, n.bios);
  }

  // ---------------------------------------------------------------------------
  // Merging
  // ---------------------------------------------------------------------------

  /** elv_rqhash_reposition after the request has grown at its end: it leaves the bucket of its
      old end, where it still is, for that of the new. */
  function Reposition(h: Hash, s: State, id: nat, r: Req): State
    requires id in s.reqs
  {
    var s1 := if s.reqs[id].hashed then HashDel(s, h(End(s.reqs[id])), id) else s;
    var s2 := s1.(reqs := s1.reqs[id := r.(hashed := false)]);
    HashAdd(h, s2, id)
  }

  /** elv_rqhash_del, and the request is gone */
  function Drop(h: Hash, s: State, id: nat): State
    requires id in s.reqs
  {
    var s1 := if s.reqs[id].hashed then HashDel(s, h(End(s.reqs[id])), id) else s;
    s1.(reqs := s1.reqs - {id})
  }

  /** attempt_merge, once the requests are adjacent and every other test allows it. */
  function MergeReqs(h: Hash, s: State, id: nat, next: nat): State
    requires id in s.reqs && next in s.reqs && id != next
  {
    Drop(h, Reposition(h, s, id, Absorbed(s.reqs[id], s.reqs[next])), next)
  }

  predicate Adjacent(s: State, id: nat, next: nat) {
    && id in s.reqs && next in s.reqs && id != next
    && s.reqs[id].mergeable && s.reqs[next].mergeable
    && End(s.reqs[id]) == s.reqs[next].sector
  }

  lemma RepositionHash(h: Hash, s: State, id: nat, r: Req)
    requires HashOk(h, s) && id in s.reqs
    ensures HashOk(h, Reposition(h, s, id, r))
    ensures Reposition(h, s, id, r).reqs == s.reqs[id := r.(hashed := true)]
  {
    hide HashOk, End;
    var s1 := if s.reqs[id].hashed then HashDel(s, h(End(s.reqs[id])), id) else s;
    if s.reqs[id].hashed {
      HashDelKeeps(h, s, id, h(End(s.reqs[id])));
    }
    HashSame(h, s1, id, r.(hashed := false));
    HashAddKeeps(h, s1.(reqs := s1.reqs[id := r.(hashed := false)]), id);
  }

  lemma DropHash(h: Hash, s: State, id: nat)
    requires HashOk(h, s) && id in s.reqs
    ensures HashOk(h, Drop(h, s, id))
    ensures Drop(h, s, id).reqs == s.reqs - {id}
  {
    hide NoDup, End;
    var s1 := if s.reqs[id].hashed then HashDel(s, h(End(s.reqs[id])), id) else s;
    if s.reqs[id].hashed {
      HashDelKeeps(h, s, id, h(End(s.reqs[id])));
    }
    var s' := Drop(h, s, id);
    forall k: nat ensures BucketOk(h, s'.reqs, k, Bucket(s'.buckets, k)) {
      assert BucketOk(h, s1.reqs, k, Bucket(s1.buckets, k));
      forall x ensures HashedIn(h, s'.reqs, x, k) <==> HashedIn(h, s1.reqs, x, k) {
        assert x == id ==> !HashedIn(h, s1.reqs, x, k);
      }
    }
  }

  // ---------------------------------------------------------------------------
  // No bio is lost or duplicated
  // ---------------------------------------------------------------------------

  /** A request takes in one new bio. */
  lemma GrownOwned(reqs: map<nat, Req>, id: nat, r: Req, b: Bio)
    requires OwnedOnce(reqs) && id in reqs && !Held(reqs, b) && Distinct(r.bios)
    requires forall x :: x in r.bios <==> x in reqs[id].bios || x == b
    ensures OwnedOnce(reqs[id := r])
    ensures forall x :: Held(reqs[id := r], x) <==> Held(reqs, x) || x == b
  {
    hide Distinct;
    var reqs' := reqs[id := r];
    forall i: nat, x ensures Owns(reqs', i, x) <==> Owns(reqs, i, x) || (i == id && x == b) {
    }
    assert Owns(reqs', id, b);
    forall x ensures Held(reqs', x) <==> Held(reqs, x) || x == b {
      if Held(reqs, x) {
        var i: nat :| Owns(reqs, i, x);
        assert Owns(reqs', i, x);
      }
      if Held(reqs', x) {
        var i: nat :| Owns(reqs', i, x);
      }
    }
  }

  /** A request takes in all of another, which is gone. */
  lemma AbsorbedOwned(reqs: map<nat, Req>, id: nat, next: nat, r: Req)
    requires OwnedOnce(reqs) && id in reqs && next in reqs && id != next
    requires r.bios == reqs[id].bios + reqs[next].bios
    ensures OwnedOnce(reqs[id := r] - {next})
    ensures forall x :: Held(reqs[id := r] - {next}, x) <==> Held(reqs, x)
  {
    var reqs' := reqs[id := r] - {next};
    assert Distinct(r.bios) by {
      forall x | x in reqs[id].bios ensures x !in reqs[next].bios {
        assert Owns(reqs, id, x);
        assert Owns(reqs, next, x) ==> id == next;
      }
      DistinctConcat(reqs[id].bios, reqs[next].bios);
    }
    hide Distinct;
    forall i: nat, x ensures Owns(reqs', i, x) <==> i != next && (Owns(reqs, i, x) || (i == id && Owns(reqs, next, x))) {
    }
    forall x ensures Held(reqs', x) <==> Held(reqs, x) {
      if Held(reqs, x) {
        var i: nat :| Owns(reqs, i, x);
        assert Owns(reqs', if i == next then id else i, x);
      }
      if Held(reqs', x) {
        var i: nat :| Owns(reqs', i, x);
        assert Owns(reqs, i, x) || Owns(reqs, next, x);
      }
    }
  }

  lemma DroppedOwned(reqs: map<nat, Req>, id: nat)
    requires OwnedOnce(reqs) && id in reqs
    ensures OwnedOnce(reqs - {id})
    ensures forall x :: Held(reqs - {id}, x) <==> Held(reqs, x) && x !in reqs[id].bios
  {
    hide Distinct;
    var reqs' := reqs - {id};
    forall i: nat, x ensures Owns(reqs', i, x) <==> Owns(reqs, i, x) && i != id {
    }
    forall x ensures Held(reqs', x) <==> Held(reqs, x) && x !in reqs[id].bios {
      assert x in reqs[id].bios ==> Owns(reqs, id, x);
      if Held(reqs, x) && x !in reqs[id].bios {
        var i: nat :| Owns(reqs, i, x);
        assert Owns(reqs', i, x);
      }
    }
  }

  lemma ReflaggedOwned(reqs: map<nat, Req>, id: nat, r: Req)
    requires OwnedOnce(reqs) && id in reqs && r.bios == reqs[id].bios
    ensures OwnedOnce(reqs[id := r])
    ensures forall x :: Held(reqs[id := r], x) <==> Held(reqs, x)
  {
    hide Distinct;
    var reqs' := reqs[id := r];
    forall i: nat, x ensures Owns(reqs', i, x) <==> Owns(reqs, i, x) {
    }
    forall x ensures Held(reqs', x) <==> Held(reqs, x) {
      if Held(reqs, x) {
        var i: nat :| Owns(reqs, i, x);
        assert Owns(reqs', i, x);
      }
      if Held(reqs', x) {
        var i: nat :| Owns(reqs', i, x);
        assert Owns(reqs, i, x);
      }
    }
  }

  lemma ChainsSet(reqs: map<nat, Req>, id: nat, r: Req)
    requires ChainsOk(reqs) && ChainOk(r)
    ensures ChainsOk(reqs[id := r])
  {
    hide ChainOk;
  }

  lemma ChainsLess(reqs: map<nat, Req>, id: nat)
    requires ChainsOk(reqs)
    ensures ChainsOk(reqs - {id})
  {
    hide ChainOk;
  }

  lemma HashedChain(r: Req, on: bool)
    requires ChainOk(r)
    ensures ChainOk(r.(hashed := on))
  {
  }

  lemma BackOwned(r: Req, b: Bio)
    requires Distinct(r.bios) && b !in r.bios
    ensures Distinct(WithBack(r, b).bios) && Distinct(WithFront(r, b).bios)
  {
    DistinctOne(b);
    DistinctConcat(r.bios, [b]);
    DistinctConcat([b], r.bios);
  }

  /** attempt_merge: two adjacent requests become one, and every bio stays. */
  lemma MergeReqsKeeps(h: Hash, s: State, id: nat, next: nat)
    requires Valid(h, s) && Adjacent(s, id, next)
    ensures Valid(h, MergeReqs(h, s, id, next))
    ensures forall x :: Held(MergeReqs(h, s, id, next).reqs, x) <==> Held(s.reqs, x)
  {
    hide HashOk, OwnedOnce, Held, End, Run, Sectors;
    var r := Absorbed(s.reqs[id], s.reqs[next]);
    AbsorbedChain(s.reqs[id], s.reqs[next]);
    HashedChain(r, true);
    RepositionHash(h, s, id, r);
    var s1 := Reposition(h, s, id, r);
    DropHash(h, s1, next);
    AbsorbedOwned(s.reqs, id, next, r.(hashed := true));
    ChainsSet(s.reqs, id, r.(hashed := true));
    ChainsLess(s1.reqs, next);
  }

  /** A back merge, without the request behind it. */
  lemma BackMergeKeeps(h: Hash, s: State, id: nat, b: Bio)
    requires Valid(h, s) && id in s.reqs && b.sector == End(s.reqs[id]) && !Held(s.reqs, b)
    ensures var s' := Reposition(h, s, id, WithBack(s.reqs[id], b));
            Valid(h, s') && forall x :: Held(s'.reqs, x) <==> Held(s.reqs, x) || x == b
  {
    hide HashOk, End, Run, Sectors, Distinct;
    var r := WithBack(s.reqs[id], b);
    BackChain(s.reqs[id], b);
    HashedChain(r, true);
    RepositionHash(h, s, id, r);
    assert b in s.reqs[id].bios ==> Owns(s.reqs, id, b);
    BackOwned(s.reqs[id], b);
    hide Held, OwnedOnce;
    GrownOwned(s.reqs, id, r.(hashed := true), b);
    ChainsSet(s.reqs, id, r.(hashed := true));
  }

  /** A front merge, without the request in front: the end stays, and so does the bucket. */
  lemma FrontMergeKeeps(h: Hash, s: State, id: nat, b: Bio)
    requires Valid(h, s) && id in s.reqs && b.sector + b.sectors == s.reqs[id].sector && !Held(s.reqs, b)
    ensures var s' := s.(reqs := s.reqs[id := WithFront(s.reqs[id], b)]);
            Valid(h, s') && forall x :: Held(s'.reqs, x) <==> Held(s.reqs, x) || x == b
  {
    hide HashOk, Run, Sectors, Distinct;
    var r := WithFront(s.reqs[id], b);
    FrontChain(s.reqs[id], b);
    HashSame(h, s, id, r);
    assert b in s.reqs[id].bios ==> Owns(s.reqs, id, b);
    BackOwned(s.reqs[id], b);
    hide Held, OwnedOnce;
    GrownOwned(s.reqs, id, r, b);
    ChainsSet(s.reqs, id, r);
  }

  // ---------------------------------------------------------------------------
  // Runs
  // ---------------------------------------------------------------------------

  /** What may happen: a bio starts a request, is merged at the back or front of one (which may
      then absorb its neighbour or be absorbed), a request leaves the scheduler, or becomes
      unmergeable, or is dropped from the hash by a lookup. */
  datatype Action =
    | Start(id: nat, b: Bio, mergeable: bool)
    | Back(id: nat, b: Bio, next: Option<nat>)
    | Front(id: nat, b: Bio, prev: Option<nat>)
    | Leave(id: nat)
    | Forbid(id: nat)
    | Prune(id: nat)

  function Started(h: Hash, s: State, id: nat, b: Bio, mergeable: bool): State {
    var s1 := s.(reqs := s.reqs[id := Req([b], b.sector, b.sectors, mergeable, false)]);
    if mergeable then HashAdd(h, s1, id) else s1
  }

  function Apply(h: Hash, s: State, a: Action): State
    requires Enabled(h, s, a)
  {
    match a
    case Start(id, b, mergeable) => Started(h, s, id, b, mergeable)
    case Back(id, b, next) =>
      var s1 := Reposition(h, s, id, WithBack(s.reqs[id], b));
      if next.Some? && Adjacent(s1, id, next.value) then MergeReqs(h, s1, id, next.value) else s1
    case Front(id, b, prev) =>
      var s1 := s.(reqs := s.reqs[id := WithFront(s.reqs[id], b)]);
      if prev.Some? && Adjacent(s1, prev.value, id) then MergeReqs(h, s1, prev.value, id) else s1
    case Leave(id) => Drop(h, s, id)
    case Forbid(id) => s.(reqs := s.reqs[id := s.reqs[id].(mergeable := false)])
    case Prune(id) => HashDel(s, h(End(s.reqs[id])), id)
  }

  ghost predicate Fresh(s: State, b: Bio) {
    !Held(s.reqs, b)
  }

  predicate Enabled(h: Hash, s: State, a: Action) {
    match a
    case Start(id, b, _) => id !in s.reqs
    case Back(id, b, _) => id in s.reqs && s.reqs[id].mergeable && TryMerge(s.reqs[id], b) == BackMerge
    case Front(id, b, _) => id in s.reqs && s.reqs[id].mergeable && TryMerge(s.reqs[id], b) == FrontMerge
    case Leave(id) => id in s.reqs
    case Forbid(id) => id in s.reqs
    case Prune(id) => id in s.reqs && !s.reqs[id].mergeable
  }

  /** The bio an action brings, and the request it takes away. */
  ghost predicate Brings(a: Action, b: Bio) {
    (a.Start? || a.Back? || a.Front?) && a.b == b
  }

  ghost predicate Takes(s: State, a: Action, b: Bio) {
    a.Leave? && Owns(s.reqs, a.id, b)
  }

  lemma StartKeeps(h: Hash, s: State, id: nat, b: Bio, mergeable: bool)
    requires Valid(h, s) && id !in s.reqs && !Held(s.reqs, b)
    ensures Valid(h, Started(h, s, id, b, mergeable))
    ensures forall x :: Held(Started(h, s, id, b, mergeable).reqs, x) <==> Held(s.reqs, x) || x == b
  {
    hide NoDup, End;
    var r := Req([b], b.sector, b.sectors, mergeable, false);
    var s1 := s.(reqs := s.reqs[id := r]);
    forall k: nat ensures BucketOk(h, s1.reqs, k, Bucket(s1.buckets, k)) {
      assert BucketOk(h, s.reqs, k, Bucket(s.buckets, k));
      forall x ensures HashedIn(h, s1.reqs, x, k) <==> HashedIn(h, s.reqs, x, k) {
      }
    }
    StartOwned(s.reqs, id, r, b);
    StartChains(s.reqs, id, r, b);
    if mergeable {
      HashAddKeeps(h, s1, id);
      ReflaggedOwned(s1.reqs, id, r.(hashed := true));
      HashedChain(r, true);
      ChainsSet(s1.reqs, id, r.(hashed := true));
    }
  }

  lemma StartOwned(reqs: map<nat, Req>, id: nat, r: Req, b: Bio)
    requires OwnedOnce(reqs) && id !in reqs && r.bios == [b] && !Held(reqs, b)
    ensures OwnedOnce(reqs[id := r])
    ensures forall x :: Held(reqs[id := r], x) <==> Held(reqs, x) || x == b
  {
    DistinctOne(b);
    hide Distinct;
    var reqs' := reqs[id := r];
    forall i: nat, x ensures Owns(reqs', i, x) <==> Owns(reqs, i, x) || (i == id && x == b) {
    }
    assert Owns(reqs', id, b);
    forall x ensures Held(reqs', x) <==> Held(reqs, x) || x == b {
      if Held(reqs, x) {
        var i: nat :| Owns(reqs, i, x);
        assert Owns(reqs', i, x);
      }
    }
  }

  lemma StartChains(reqs: map<nat, Req>, id: nat, r: Req, b: Bio)
    requires ChainsOk(reqs) && r.bios == [b] && r.sector == b.sector && r.sectors == b.sectors
    ensures ChainsOk(reqs[id := r]) && ChainOk(r)
  {
    RunOne(b);
    SectorsOne(b);
    ChainsSet(reqs, id, r);
  }

  /** Every action keeps the index and the chains right, and neither loses nor duplicates a bio. */
  lemma StepKeeps(h: Hash, s: State, a: Action)
    requires Valid(h, s) && Enabled(h, s, a) && forall b | Brings(a, b) :: Fresh(s, b)
    ensures Valid(h, Apply(h, s, a))
    ensures forall x :: Held(Apply(h, s, a).reqs, x) <==> (Held(s.reqs, x) && !Takes(s, a, x)) || Brings(a, x)
  {
    hide HashOk, ChainsOk, OwnedOnce, Held, Reposition, MergeReqs, Drop, HashDel, Started, End, Adjacent;
    match a
    case Start(id, b, mergeable) =>
      assert Brings(a, b);
      StartKeeps(h, s, id, b, mergeable);
    case Back(id, b, next) =>
      assert Brings(a, b);
      BackMergeKeeps(h, s, id, b);
      var s1 := Reposition(h, s, id, WithBack(s.reqs[id], b));
      if next.Some? && Adjacent(s1, id, next.value) {
        MergeReqsKeeps(h, s1, id, next.value);
      }
    case Front(id, b, prev) =>
      assert Brings(a, b);
      FrontMergeKeeps(h, s, id, b);
      var s1 := s.(reqs := s.reqs[id := WithFront(s.reqs[id], b)]);
      if prev.Some? && Adjacent(s1, prev.value, id) {
        MergeReqsKeeps(h, s1, prev.value, id);
      }
    case Leave(id) =>
      DropHash(h, s, id);
      DroppedOwned(s.reqs, id);
      ChainsLess(s.reqs, id);
    case Forbid(id) => ForbidKeeps(h, s, id);
    case Prune(id) => PruneKeeps(h, s, id);
  }

  lemma ForbidKeeps(h: Hash, s: State, id: nat)
    requires Valid(h, s) && id in s.reqs
    ensures var s' := s.(reqs := s.reqs[id := s.reqs[id].(mergeable := false)]);
            Valid(h, s') && forall x :: Held(s'.reqs, x) <==> Held(s.reqs, x)
  {
    hide HashOk, OwnedOnce, Held, Run, Sectors;
    var r := s.reqs[id].(mergeable := false);
    HashSame(h, s, id, r);
    ReflaggedOwned(s.reqs, id, r);
    ChainsSet(s.reqs, id, r);
  }

  lemma PruneKeeps(h: Hash, s: State, id: nat)
    requires Valid(h, s) && id in s.reqs
    ensures var s' := HashDel(s, h(End(s.reqs[id])), id);
            Valid(h, s') && forall x :: Held(s'.reqs, x) <==> Held(s.reqs, x)
  {
    hide HashOk, OwnedOnce, Held, Run, Sectors, End;
    var r := s.reqs[id].(hashed := false);
    HashDelKeeps(h, s, id, h(End(s.reqs[id])));
    ReflaggedOwned(s.reqs, id, r);
    HashedChain(s.reqs[id], false);
    ChainsSet(s.reqs, id, r);
  }

  ghost predicate IsRun(h: Hash, ss: seq<State>, acts: seq<Action>) {
    && |ss| == |acts| + 1
    && ss[0] == State(map[], map[])
    && forall i | 0 <= i < |acts| ::
         && Enabled(h, ss[i], acts[i])
         && ss[i + 1] == Apply(h, ss[i], acts[i])
         && forall b | Brings(acts[i], b) :: Fresh(ss[i], b)
  }

  /** In every state of every run the index agrees with the requests, every request's bios are
      one ascending run of sectors that __sector and __data_len describe, and every bio is on one
      chain. */
  lemma {:induction false} IndexAgrees(h: Hash, ss: seq<State>, acts: seq<Action>, i: nat)
    requires IsRun(h, ss, acts) && i <= |acts|
    ensures Valid(h, ss[i])
  {
    hide Valid, Apply, Enabled, Fresh, Brings;
    if i == 0 {
      NothingIndexed(h);
    } else {
      IndexAgrees(h, ss, acts, i - 1);
      StepKeeps(h, ss[i - 1], acts[i - 1]);
    }
  }

  lemma NothingIndexed(h: Hash)
    ensures Valid(h, State(map[], map[]))
  {
    var s := State(map[], map[]);
    forall k: nat ensures BucketOk(h, s.reqs, k, Bucket(s.buckets, k)) {
      assert forall x :: !HashedIn(h, s.reqs, x, k);
    }
  }
}
