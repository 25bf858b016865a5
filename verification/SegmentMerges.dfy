/** Every merge keeps a request's segment count sound. */
module SegmentMerges {
  import opened Segments

  // ---------------------------------------------------------------------------
  // Soundness
  // ---------------------------------------------------------------------------

  /** blk_rq_map_sg never emits more entries than nr_phys_segments. */
  lemma CountIsSound(l: Limits, r: Req)
    requires ReqOk(l, r)
    ensures Segs(Greedy(l, Flat(r.bios))) <= r.nr
  {
    var cuts :| Fits(l, Flat(r.bios), cuts, r.nr, Head(r).front, Tail(r).back);
    GreedyAhead(l, Flat(r.bios), cuts);
  }

  lemma FlatNotEmpty(bios: seq<Bio>)
    requires bios != [] && forall i | 0 <= i < |bios| :: bios[i].vecs != []
    ensures Flat(bios) != []
    ensures Flat(bios)[|Flat(bios)| - 1] == bios[|bios|-1].vecs[|bios[|bios|-1].vecs| - 1]
    ensures Flat(bios)[0] == bios[0].vecs[0]
  {
    FlatConcat([bios[0]], bios[1..]);
    FlatOne(bios[0]);
    assert bios == [bios[0]] + bios[1..];
  }

  // ---------------------------------------------------------------------------
  // The operations
  // ---------------------------------------------------------------------------

  lemma ResizedTail(l: Limits, r: Req, b: Bio)
    requires ReqOk(l, r) && b.vecs == Tail(r).vecs && Tail(r).back <= b.back && Tail(r).front <= b.front
    ensures ReqOk(l, SetTail(r, b))
  {
    hide Covers;
    var r' := SetTail(r, b);
    FlatSame(r.bios, r'.bios);
    CoversMore(l, Flat(r.bios), r.nr, Head(r).front, Tail(r).back, Head(r').front, Tail(r').back);
  }

  lemma ResizedHead(l: Limits, r: Req, b: Bio)
    requires ReqOk(l, r) && b.vecs == Head(r).vecs && Head(r).front <= b.front && Head(r).back <= b.back
    ensures ReqOk(l, SetHead(r, b))
  {
    hide Covers;
    var r' := SetHead(r, b);
    FlatSame(r.bios, r'.bios);
    CoversMore(l, Flat(r.bios), r.nr, Head(r).front, Tail(r).back, Head(r').front, Tail(r').back);
  }

  /** Two chains, end to end, with the counts added. */
  lemma Appended(l: Limits, a: Req, b: Req)
    requires ReqOk(l, a) && ReqOk(l, b)
    ensures ReqOk(l, Req(a.bios + b.bios, a.nr + b.nr))
  {
    hide Covers, Flat;
    FlatConcat(a.bios, b.bios);
    FlatNotEmpty(a.bios);
    FlatNotEmpty(b.bios);
    CoversAppend(l, Flat(a.bios), a.nr, Head(a).front, Tail(a).back, Flat(b.bios), b.nr, Head(b).front, Tail(b).back);
  }

  lemma BackMergeKeeps(l: Limits, r: Req, b: Bio)
    requires ReqOk(l, r) && BioOk(l, b)
    ensures ReqOk(l, BackMerge(l, r, b).0)
  {
    hide Covers, Recounted, ReqOk;
    ReqHasBios(l, r);
    RecountedGrows(l, Tail(r));
    ResizedTail(l, r, Recounted(l, Tail(r)));
    NewReqOk(l, b);
    Appended(l, SetTail(r, Recounted(l, Tail(r))), NewReq(l, b));
  }

  lemma ReqHasBios(l: Limits, r: Req)
    requires ReqOk(l, r)
    ensures r.bios != []
  {
  }

  lemma FrontMergeKeeps(l: Limits, r: Req, b: Bio)
    requires ReqOk(l, r) && BioOk(l, b)
    ensures ReqOk(l, FrontMerge(l, r, b).0)
  {
    hide Covers, Recounted, ReqOk;
    ReqHasBios(l, r);
    RecountedGrows(l, Head(r));
    ResizedHead(l, r, Recounted(l, Head(r)));
    NewReqOk(l, b);
    Appended(l, NewReq(l, b), SetHead(r, Recounted(l, Head(r))));
  }

  // ---------------------------------------------------------------------------
  // When a merge is allowed, and what it leaves
  // ---------------------------------------------------------------------------

  /** How many segments a bio counts for: what it was found to have, or a recount. */
  function CountOf(l: Limits, b: Bio): nat {
    if b.valid then b.nr else Segs(Recalc(l, b.vecs))
  }

  /** The same bios in the same order, whatever the sizes kept in them. */
  ghost predicate SameData(a: seq<Bio>, b: seq<Bio>) {
    |a| == |b| && forall i | 0 <= i < |a| :: a[i].vecs == b[i].vecs
  }

  /** A bio is merged if and only if the segments stay within the limit. */
  ghost predicate AddedWithin(l: Limits, r: Req, r': Req, merged: bool, n: nat, whole: seq<Bio>) {
    && (merged <==> r.nr + n <= l.maxSegments)
    && (if merged then r'.nr == r.nr + n && SameData(r'.bios, whole) else r'.nr == r.nr && SameData(r'.bios, r.bios))
  }

  lemma BackMergeIff(l: Limits, r: Req, b: Bio)
    requires r.bios != []
    ensures var (r', merged) := BackMerge(l, r, b); AddedWithin(l, r, r', merged, CountOf(l, b), r.bios + [b])
  {
  }

  lemma FrontMergeIff(l: Limits, r: Req, b: Bio)
    requires r.bios != []
    ensures var (r', merged) := FrontMerge(l, r, b); AddedWithin(l, r, r', merged, CountOf(l, b), [b] + r.bios)
  {
  }

  /** The last segment of r and the first of n become one. */
  ghost predicate Meets(l: Limits, r: Req, n: Req)
    requires ReqOk(l, r) && ReqOk(l, n)
  {
    var a, b := Tail(r), Head(n);
    l.cluster && a.back + b.front <= l.maxSize && Glue(l, a.vecs[|a.vecs| - 1], b.vecs[0])
  }

  /** Two requests merge if and only if their segments, one less if their ends meet, stay within the
      limit. */
  lemma MergeReqsIff(l: Limits, r: Req, n: Req)
    requires ReqOk(l, r) && ReqOk(l, n)
    ensures var (r', n', merged) := MergeReqs(l, r, n);
            var total := r.nr + n.nr - if Meets(l, r, n) then 1 else 0;
            && (merged <==> total <= l.maxSegments)
            && n'.nr == n.nr && SameData(n'.bios, n.bios)
            && if merged then r'.nr == total && SameData(r'.bios, r.bios + n.bios) else r'.nr == r.nr && SameData(r'.bios, r.bios)
  {
    hide Covers, Flat, Glue;
    CountPositive(l, r);
  }

  lemma CountPositive(l: Limits, r: Req)
    requires ReqOk(l, r)
    ensures r.nr >= 1
  {
    hide Flat, FirstSize, LastSize;
    FlatNotEmpty(r.bios);
    var cuts :| Fits(l, Flat(r.bios), cuts, r.nr, Head(r).front, Tail(r).back);
    FirstIsCut(l, Flat(r.bios), cuts);
    CutCounts(cuts, 0);
  }

  lemma HeadSizeOf(l: Limits, r: Req, size: nat)
    requires ReqOk(l, r) && r.nr == 1 && Tail(r).back <= size
    ensures ReqOk(l, SetHead(r, Head(r).(front := size)))
  {
    hide Flat;
    var r' := SetHead(r, Head(r).(front := size));
    FlatSame(r.bios, r'.bios);
    FlatNotEmpty(r.bios);
    var cuts :| Fits(l, Flat(r.bios), cuts, 1, Head(r).front, Tail(r).back);
    SplitSizes(l, Flat(r.bios), cuts);
    FirstIsCut(l, Flat(r.bios), cuts);
    OneSegment(Flat(r.bios), cuts);
    assert Fits(l, Flat(r'.bios), cuts, 1, Head(r').front, Tail(r').back);
  }

  lemma TailSizeOf(l: Limits, r: Req, size: nat)
    requires ReqOk(l, r) && r.nr == 1 && Head(r).front <= size
    ensures ReqOk(l, SetTail(r, Tail(r).(back := size)))
  {
    hide Flat;
    var r' := SetTail(r, Tail(r).(back := size));
    FlatSame(r.bios, r'.bios);
    FlatNotEmpty(r.bios);
    var cuts :| Fits(l, Flat(r.bios), cuts, 1, Head(r).front, Tail(r).back);
    SplitSizes(l, Flat(r.bios), cuts);
    FirstIsCut(l, Flat(r.bios), cuts);
    OneSegment(Flat(r.bios), cuts);
    assert Fits(l, Flat(r'.bios), cuts, 1, Head(r').front, Tail(r').back);
  }

  lemma JoinedKeeps(l: Limits, r: Req, n: Req)
    requires ReqOk(l, r) && ReqOk(l, n) && Contiguous(l, Tail(r), Head(n))
    ensures var size := Tail(r).back + Head(n).front;
            Covers(l, Flat(r.bios) + Flat(n.bios), r.nr + n.nr - 1,
                   if r.nr == 1 then size else Head(r).front, if n.nr == 1 then size else Tail(n).back)
  {
    hide Covers, Flat, Glue;
    FlatNotEmpty(r.bios);
    FlatNotEmpty(n.bios);
    CoversJoin(l, Flat(r.bios), r.nr, Head(r).front, Tail(r).back, Flat(n.bios), n.nr, Head(n).front, Tail(n).back);
  }

  /** The sizes that ll_merge_requests_fn writes keep both requests sound, merged or not. */
  lemma MergeReqsKeeps(l: Limits, r: Req, n: Req)
    requires ReqOk(l, r) && ReqOk(l, n)
    ensures var (r', n', merged) := MergeReqs(l, r, n); ReqOk(l, r') && ReqOk(l, n')
  {
    hide Covers, Contiguous, Flat;
    var size := Tail(r).back + Head(n).front;
    if Contiguous(l, Tail(r), Head(n)) {
      if r.nr == 1 { HeadSizeOf(l, r, size); }
      if n.nr == 1 { TailSizeOf(l, n, size); }
      JoinedKeeps(l, r, n);
      var (r', n', merged) := MergeReqs(l, r, n);
      if merged { MergedChain(r, n, r', size); }
    } else {
      Appended(l, r, n);
    }
  }

  /** Writing the sizes changes no data. */
  lemma MergedChain(r: Req, n: Req, r': Req, size: nat)
    requires r.bios != [] && n.bios != []
    requires var r1 := if r.nr == 1 then SetHead(r, Head(r).(front := size)) else r;
             var n1 := if n.nr == 1 then SetTail(n, Tail(n).(back := size)) else n;
             r'.bios == r1.bios + n1.bios
    ensures Flat(r'.bios) == Flat(r.bios) + Flat(n.bios)
  {
    var r1 := if r.nr == 1 then SetHead(r, Head(r).(front := size)) else r;
    var n1 := if n.nr == 1 then SetTail(n, Tail(n).(back := size)) else n;
    FlatSame(r.bios, r1.bios);
    FlatSame(n.bios, n1.bios);
    FlatConcat(r1.bios, n1.bios);
  }

  lemma RecalculatedOk(l: Limits, bios: seq<Bio>)
    requires bios != [] && forall i | 0 <= i < |bios| :: bios[i].vecs != []
    ensures ReqOk(l, Recalculated(l, bios))
  {
    hide Valid, FirstSize, LastSize, Segs, Recalc;
    var r := Recalculated(l, bios);
    FlatSame(bios, r.bios);
    RecalcFits(l, Flat(bios), bios[0].front, bios[|bios|-1].back);
    assert Fits(l, Flat(bios), Recalc(l, Flat(bios)), r.nr, Head(r).front, Tail(r).back);
  }

  // ---------------------------------------------------------------------------
  // Runs
  // ---------------------------------------------------------------------------

  /** What may happen to a pool of requests: a bio starts a request, or is merged at the back or
      the front of one; a request absorbs another; and a partial completion shortens a chain. */
  datatype Action =
    | Start(b: Bio)
    | Back(i: nat, b: Bio)
    | Front(i: nat, b: Bio)
    | Merge(i: nat, j: nat)
    | Shorten(i: nat, bios: seq<Bio>)

  predicate Enabled(pool: seq<Req>, a: Action) {
    match a
    case Start(b) => true
    case Back(i, b) => i < |pool| && pool[i].bios != []
    case Front(i, b) => i < |pool| && pool[i].bios != []
    case Merge(i, j) => i < |pool| && j < |pool| && i != j && pool[i].bios != [] && pool[j].bios != []
    case Shorten(i, bios) => i < |pool| && bios != []
  }

  function Apply(l: Limits, pool: seq<Req>, a: Action): seq<Req>
    requires Enabled(pool, a)
  {
    match a
    case Start(b) => pool + [NewReq(l, b)]
    case Back(i, b) => pool[i := BackMerge(l, pool[i], b).0]
    case Front(i, b) => pool[i := FrontMerge(l, pool[i], b).0]
    case Merge(i, j) =>
      var (r, n, merged) := MergeReqs(l, pool[i], pool[j]);
      var pool' := pool[i := r][j := n];
      if merged then pool'[..j] + pool'[j+1..] else pool'
    case Shorten(i, bios) => pool[i := Recalculated(l, bios)]
  }

  /** Every bio that takes part carries data. */
  ghost predicate WithData(l: Limits, a: Action) {
    match a
    case Start(b) => BioOk(l, b)
    case Back(_, b) => BioOk(l, b)
    case Front(_, b) => BioOk(l, b)
    case Merge(_, _) => true
    case Shorten(_, bios) => forall i | 0 <= i < |bios| :: bios[i].vecs != []
  }

  ghost predicate PoolOk(l: Limits, pool: seq<Req>) {
    forall i | 0 <= i < |pool| :: ReqOk(l, pool[i])
  }

  lemma StepKeeps(l: Limits, pool: seq<Req>, a: Action)
    requires PoolOk(l, pool) && Enabled(pool, a) && WithData(l, a)
    ensures PoolOk(l, Apply(l, pool, a))
  {
    hide ReqOk, BioOk, NewReq, BackMerge, FrontMerge, MergeReqs, Recalculated;
    match a
    case Start(b) => NewReqOk(l, b);
    case Back(i, b) => BackMergeKeeps(l, pool[i], b);
    case Front(i, b) => FrontMergeKeeps(l, pool[i], b);
    case Merge(i, j) => MergeReqsKeeps(l, pool[i], pool[j]);
    case Shorten(i, bios) => RecalculatedOk(l, bios);
  }

  ghost predicate IsRun(l: Limits, pools: seq<seq<Req>>, acts: seq<Action>) {
    && |pools| == |acts| + 1
    && pools[0] == []
    && forall i | 0 <= i < |acts| ::
         Enabled(pools[i], acts[i]) && WithData(l, acts[i]) && pools[i + 1] == Apply(l, pools[i], acts[i])
  }

  lemma {:induction false} RunKeeps(l: Limits, pools: seq<seq<Req>>, acts: seq<Action>, i: nat)
    requires IsRun(l, pools, acts) && i <= |acts|
    ensures PoolOk(l, pools[i])
  {
    hide PoolOk, Apply, WithData;
    if i == 0 {
      NoRequests(l);
    } else {
      RunKeeps(l, pools, acts, i - 1);
      StepKeeps(l, pools[i - 1], acts[i - 1]);
    }
  }

  lemma NoRequests(l: Limits)
    ensures PoolOk(l, [])
  {
  }

  /** Segment count soundness over any sequence of merges and partial completions. */
  lemma CountsStaySound(l: Limits, pools: seq<seq<Req>>, acts: seq<Action>, i: nat, k: nat)
    requires IsRun(l, pools, acts) && i <= |acts| && k < |pools[i]|
    ensures Segs(Greedy(l, Flat(pools[i][k].bios))) <= pools[i][k].nr
  {
    RunKeeps(l, pools, acts, i);
    CountIsSound(l, pools[i][k]);
  }

  // ---------------------------------------------------------------------------
  // The limit
  // ---------------------------------------------------------------------------

  /** What is new in the pool is within the limit; merges are not restricted. */
  ghost predicate NewWithin(l: Limits, a: Action) {
    match a
    case Start(b) => CountOf(l, b) <= l.maxSegments
    case Shorten(_, bios) => Segs(Recalc(l, Flat(bios))) <= l.maxSegments
    case _ => true
  }

  ghost predicate PoolWithin(l: Limits, pool: seq<Req>) {
    forall i | 0 <= i < |pool| :: pool[i].nr <= l.maxSegments
  }

  lemma StepWithin(l: Limits, pool: seq<Req>, a: Action)
    requires PoolOk(l, pool) && PoolWithin(l, pool) && Enabled(pool, a) && NewWithin(l, a)
    ensures PoolWithin(l, Apply(l, pool, a))
  {
    hide ReqOk, BackMerge, FrontMerge, MergeReqs, Flat, Recalc, SameData, CountOf;
    match a
    case Start(b) => NewCount(l, b);
    case Back(i, b) => BackMergeIff(l, pool[i], b);
    case Front(i, b) => FrontMergeIff(l, pool[i], b);
    case Merge(i, j) => MergeReqsIff(l, pool[i], pool[j]);
    case Shorten(i, bios) =>
  }

  lemma NewCount(l: Limits, b: Bio)
    ensures NewReq(l, b).nr == CountOf(l, b)
  {
  }

  lemma {:induction false} RunWithin(l: Limits, pools: seq<seq<Req>>, acts: seq<Action>, i: nat)
    requires IsRun(l, pools, acts) && i <= |acts| && forall k | 0 <= k < i :: NewWithin(l, acts[k])
    ensures PoolWithin(l, pools[i])
  {
    hide PoolOk, Apply, WithData, NewWithin;
    if i > 0 {
      RunWithin(l, pools, acts, i - 1);
      RunKeeps(l, pools, acts, i - 1);
      StepWithin(l, pools[i - 1], acts[i - 1]);
    }
  }

  /** If what starts or is shortened is within the limit, merges keep every request within it, and
      blk_rq_map_sg never emits more than max_segments data entries. */
  lemma LimitIsKept(l: Limits, pools: seq<seq<Req>>, acts: seq<Action>, i: nat, k: nat)
    requires IsRun(l, pools, acts) && i <= |acts| && k < |pools[i]| && forall j | 0 <= j < i :: NewWithin(l, acts[j])
    ensures pools[i][k].nr <= l.maxSegments && Segs(Greedy(l, Flat(pools[i][k].bios))) <= l.maxSegments
  {
    hide Apply, WithData, NewWithin, Greedy;
    RunWithin(l, pools, acts, i);
    CountsStaySound(l, pools, acts, i, k);
  }

  // ---------------------------------------------------------------------------
  // A tail bio without data
  // ---------------------------------------------------------------------------

  /** blk_phys_contig_segment skips the address test when the first bio has no data, so a request
      whose tail bio has none can absorb a request it is not adjacent to and count one segment
      too few.  Such a request arises from a bio with data and a back merge of one without. */
  lemma DatalessTailUndercounts() returns (l: Limits, x: Bio, none: Bio, y: Bio, r: Req, n: Req)
    ensures BioOk(l, x) && BioOk(l, y) && none.vecs == []
    ensures BackMerge(l, NewReq(l, x), none) == (r, true) && NewReq(l, y) == n
    ensures r.bios != [] && n.bios != [] && Tail(r).vecs == []
    ensures Segs(Greedy(l, Flat(r.bios))) <= r.nr && Segs(Greedy(l, Flat(n.bios))) <= n.nr
    ensures var (r', _, merged) := MergeReqs(l, r, n); merged && Segs(Greedy(l, Flat(r'.bios))) > r'.nr
  {
    hide Recounted, MergeReqs, Flat, Greedy, Segs;
    l := Limits(true, 65536, 0, 128);
    var a, b := Vec(0, 512, false), Vec(4096, 512, false);
    x, none, y := Bio([a], 0, 0, 0, false), Bio([], 0, 0, 0, false), Bio([b], 0, 0, 0, false);
    r := Req([Bio([a], 512, 512, 1, true), Bio([], 0, 0, 0, true)], 1);
    n := Req([Bio([b], 512, 512, 1, true)], 1);
    StartsAs(l, a);
    StartsAs(l, b);
    AddsNothing(l, r.bios[0]);
    SoundAlone(l, a, b, r, n);
    UndercountedTogether(l, a, b, r, n);
  }

  lemma SoundAlone(l: Limits, a: Vec, b: Vec, r: Req, n: Req)
    requires r.bios == [Bio([a], 512, 512, 1, true), Bio([], 0, 0, 0, true)] && n.bios == [Bio([b], 512, 512, 1, true)]
    ensures Flat(r.bios) == [a] && Flat(n.bios) == [b]
    ensures Segs(Greedy(l, [a])) == 1 && Segs(Greedy(l, [b])) == 1
  {
    FlatOne(r.bios[0]);
    FlatOne(n.bios[0]);
    assert r.bios[..1] == [r.bios[0]];
    assert [a][..0] == [] && [b][..0] == [] && [true][..0] == [];
    assert Greedy(l, [a]) == [true] && Greedy(l, [b]) == [true];
  }

  lemma UndercountedTogether(l: Limits, a: Vec, b: Vec, r: Req, n: Req)
    requires l == Limits(true, 65536, 0, 128) && a == Vec(0, 512, false) && b == Vec(4096, 512, false)
    requires r == Req([Bio([a], 512, 512, 1, true), Bio([], 0, 0, 0, true)], 1) && n == Req([Bio([b], 512, 512, 1, true)], 1)
    requires Flat(r.bios) == [a] && Flat(n.bios) == [b]
    ensures var (r', _, merged) := MergeReqs(l, r, n); merged && Segs(Greedy(l, Flat(r'.bios))) > r'.nr
  {
    hide Flat;
    var r' := MergeReqs(l, r, n).0;
    FlatSame(r'.bios, r.bios + n.bios);
    FlatConcat(r.bios, n.bios);
    assert Flat(r'.bios) == [a, b];
    TwoApart(l, a, b);
  }

  lemma TwoApart(l: Limits, a: Vec, b: Vec)
    requires a.addr + a.len != b.addr
    ensures Segs(Greedy(l, [a, b])) == 2
  {
    assert [a, b][..1] == [a] && [a][..0] == [];
    assert Greedy(l, [a, b]) == [true, true];
    assert [true, true][..1] == [true] && [true][..0] == [];
  }

  lemma StartsAs(l: Limits, v: Vec)
    ensures NewReq(l, Bio([v], 0, 0, 0, false)) == Req([Bio([v], v.len, v.len, 1, true)], 1)
  {
    CountedAlone(l, v);
    hide Recalc;
  }

  /** A back merge of a bio without data adds it and counts nothing. */
  lemma AddsNothing(l: Limits, b: Bio)
    requires b.valid && l.maxSegments > 0
    ensures BackMerge(l, Req([b], 1), Bio([], 0, 0, 0, false)) == (Req([b, Bio([], 0, 0, 0, true)], 1), true)
  {
    RecalcEmpty(l);
    hide Recalc;
    assert [b][0 := b] == [b] && [b] + [Bio([], 0, 0, 0, true)] == [b, Bio([], 0, 0, 0, true)];
  }

  lemma CountedAlone(l: Limits, v: Vec)
    ensures Recalc(l, [v]) == [true] && Segs([true]) == 1 && FirstSize([v], [true]) == v.len && LastSize([v], [true]) == v.len
  {
    assert [v][..0] == [] && [true][..0] == [];
  }

  ghost predicate MergeIsSound(l: Limits, r: Req, n: Req)
    requires r.bios != [] && n.bios != []
  {
    var (r', _, merged) := MergeReqs(l, r, n);
    merged ==> Segs(Greedy(l, Flat(r'.bios))) <= r'.nr
  }

  /** A sound request that is not adjacent to the one before it. */
  ghost function Apart(vs: seq<Vec>): Req
    requires vs != []
  {
    var last := vs[|vs|-1];
    Req([Bio([Vec(last.addr + last.len + 1, 1, false)], 1, 1, 1, true)], 1)
  }

  lemma ApartOk(l: Limits, vs: seq<Vec>)
    requires vs != []
    ensures ReqOk(l, Apart(vs))
  {
    var n := Apart(vs);
    var v := n.bios[0].vecs[0];
    FlatOne(n.bios[0]);
    assert [v][..0] == [] && [true][..0] == [];
    assert Valid(l, [], []) && Segs([]) == 0;
    assert Valid(l, [v], [true]);
    assert Segs([true]) == 1 && LastSize([v], [true]) == 1 && FirstSize([v], [true]) == 1;
    assert Fits(l, [v], [true], 1, 1, 1);
  }

  lemma ApartIsCut(l: Limits, vs: seq<Vec>)
    requires vs != []
    ensures Segs(Greedy(l, vs + Flat(Apart(vs).bios))) == Segs(Greedy(l, vs)) + 1
  {
    var v := Apart(vs).bios[0].vecs[0];
    FlatOne(Apart(vs).bios[0]);
    Snoc(vs, v);
    var g := Greedy(l, vs);
    assert Greedy(l, vs + [v]) == g + [true];
    Snoc(g, true);
  }

  /** Exactly when every merge into a request is sound: its tail bio has data.  The request may
      otherwise be any with a tight count and room for one more byte. */
  lemma SoundIffTailHasData(l: Limits, r: Req)
    requires r.bios != [] && (forall i | 0 <= i < |r.bios| - 1 :: r.bios[i].vecs != []) && Flat(r.bios) != []
    requires Covers(l, Flat(r.bios), r.nr, Head(r).front, Tail(r).back)
    requires r.nr == Segs(Greedy(l, Flat(r.bios))) && r.nr <= l.maxSegments
    requires l.cluster && Tail(r).back < l.maxSize
    ensures Tail(r).vecs != [] <==> forall n | ReqOk(l, n) :: MergeIsSound(l, r, n)
  {
    hide Covers, Flat, Greedy, Segs;
    if Tail(r).vecs != [] {
      forall n | ReqOk(l, n) ensures MergeIsSound(l, r, n) {
        hide MergeReqs;
        MergeReqsKeeps(l, r, n);
        CountIsSound(l, MergeReqs(l, r, n).0);
      }
    } else {
      var n := Apart(Flat(r.bios));
      ApartOk(l, Flat(r.bios));
      ApartIsCut(l, Flat(r.bios));
      ApartAbsorbed(l, r, n);
      assert !MergeIsSound(l, r, n);
    }
  }

  lemma ApartAbsorbed(l: Limits, r: Req, n: Req)
    requires r.bios != [] && |n.bios| == 1 && n.nr == 1 && Head(n).front == 1
    requires l.cluster && Tail(r).back < l.maxSize && Tail(r).vecs == [] && r.nr <= l.maxSegments
    ensures var (r', _, merged) := MergeReqs(l, r, n);
            merged && r'.nr == r.nr && Flat(r'.bios) == Flat(r.bios) + Flat(n.bios)
  {
    var size := Tail(r).back + Head(n).front;
    MergedChain(r, n, MergeReqs(l, r, n).0, size);
  }

  // ---------------------------------------------------------------------------
  // The loops
  // ---------------------------------------------------------------------------

  /** __blk_recalc_rq_segments over the vectors of a chain; front and back are the sizes kept in
      its first and last bio. */
  method RecalcSegments(l: Limits, vs: seq<Vec>, front0: nat, back0: nat) returns (nr: nat, front: nat, back: nat)
    ensures var cuts := Recalc(l, vs);
            && nr == Segs(cuts)
            && front == Max(front0, FirstSize(vs, cuts))
            && back == Max(back0, LastSize(vs, cuts))
    ensures Covers(l, vs, nr, front, back)
    ensures forall cuts | Valid(l, vs, cuts) && HighApart(vs, cuts) :: nr <= Segs(cuts)
  {
    hide Glue, Recalc, Segs, LastSize, FirstSize, Covers, Valid, HighApart;
    nr, front, back := 0, front0, back0;
    var segSize: nat := 0;
    var i := 0;
    var highprv := true;
    RecalcEmpty(l);
    assert vs[..0] == [];
    while i < |vs|
      invariant i <= |vs|
      invariant Counted(l, vs[..i], nr, segSize, front, front0)
      invariant i == 0 ==> highprv && nr == 0
      invariant i > 0 ==> highprv == vs[i-1].high && nr > 0
    {
      var bv := vs[i];
      RecalcNext(l, vs, i);
      if !bv.high && !highprv && l.cluster && segSize + bv.len <= l.maxSize && Glue(l, vs[i-1], bv) {
        segSize := segSize + bv.len;
      } else {
        if nr == 1 && segSize > front {
          front := segSize;
        }
        nr, segSize, highprv := nr + 1, bv.len, bv.high;
      }
      i := i + 1;
    }
    assert vs[..|vs|] == vs;
    RecalcOne(l, vs);
    if nr == 1 && segSize > front {
      front := segSize;
    }
    if segSize > back {
      back := segSize;
    }
    RecalcCovers(l, vs, front0, back0);
    forall cuts | Valid(l, vs, cuts) && HighApart(vs, cuts) ensures nr <= Segs(cuts) {
      RecalcAhead(l, vs, cuts);
    }
  }

  lemma RecalcCovers(l: Limits, vs: seq<Vec>, front: nat, back: nat)
    ensures var cuts := Recalc(l, vs);
            Covers(l, vs, Segs(cuts), Max(front, FirstSize(vs, cuts)), Max(back, LastSize(vs, cuts)))
  {
    hide Recalc, Segs, LastSize, FirstSize, Valid;
    RecalcFits(l, vs, front, back);
  }

  /** What the loop knows after the vectors vs. */
  ghost predicate Counted(l: Limits, vs: seq<Vec>, nr: nat, segSize: nat, front: nat, front0: nat) {
    var cuts := Recalc(l, vs);
    && nr == Segs(cuts)
    && segSize == LastSize(vs, cuts)
    && front == if nr <= 1 then front0 else Max(front0, FirstSize(vs, cuts))
  }

  lemma RecalcEmpty(l: Limits)
    ensures Recalc(l, []) == [] && Segs([]) == 0 && LastSize([], []) == 0 && FirstSize([], []) == 0
  {
  }

  /** One more vector. */
  lemma RecalcNext(l: Limits, vs: seq<Vec>, i: nat)
    requires i < |vs|
    ensures var c, c' := Recalc(l, vs[..i]), Recalc(l, vs[..i+1]);
            var cut := !(i > 0 && !vs[i].high && !vs[i-1].high && Joins(l, LastSize(vs[..i], c), vs[i-1], vs[i]));
            && c' == c + [cut]
            && Segs(c') == Segs(c) + (if cut then 1 else 0)
            && LastSize(vs[..i+1], c') == vs[i].len + (if cut then 0 else LastSize(vs[..i], c))
            && (Segs(c) >= 2 || (cut && i > 0) ==> FirstSize(vs[..i+1], c') == FirstSize(vs[..i], c))
            && (Segs(c) == 1 ==> FirstSize(vs[..i], c) == LastSize(vs[..i], c))
            && (i > 0 ==> Segs(c) >= 1)
  {
    hide Joins;
    var w := vs[..i+1];
    var c, c' := Recalc(l, vs[..i]), Recalc(l, w);
    assert w[..i] == vs[..i];
    Snoc(c, c'[i]);
    Next(l, w, c');
    if i > 0 {
      RecalcValid(l, vs[..i]);
      FirstIsCut(l, vs[..i], c);
      CutCounts(c, 0);
      JoinSizes(vs[..i], c);
      assert w == vs[..i] + [vs[i]];
      FirstConcat(vs[..i], c, [vs[i]], [c'[i]]);
      if Segs(c) >= 2 { SomeCut(c); }
    }
  }

  lemma RecalcOne(l: Limits, vs: seq<Vec>)
    ensures var c := Recalc(l, vs); Segs(c) == 1 ==> FirstSize(vs, c) == LastSize(vs, c)
  {
    var c := Recalc(l, vs);
    if Segs(c) == 1 && vs != [] {
      RecalcValid(l, vs);
      FirstIsCut(l, vs, c);
      JoinSizes(vs, c);
    }
  }

  /** The entries of a scatter list: address and length. */
  datatype Entry = Entry(addr: nat, length: nat)

  /** The addresses of some bytes in memory. */
  ghost function Span(addr: nat, len: nat): seq<nat> {
    seq(len, i requires i >= 0 => addr + i)
  }

  /** The memory that a scatter list names, in order. */
  ghost function Named(sg: seq<Entry>): seq<nat> {
    if sg == [] then [] else Named(sg[..|sg|-1]) + Span(sg[|sg|-1].addr, sg[|sg|-1].length)
  }

  /** The memory of the data. */
  ghost function Memory(vs: seq<Vec>): seq<nat> {
    if vs == [] then [] else Memory(vs[..|vs|-1]) + Span(vs[|vs|-1].addr, vs[|vs|-1].len)
  }

  ghost predicate Within(l: Limits, sg: seq<Entry>) {
    forall i | 0 <= i < |sg| :: sg[i].length <= l.maxSize
  }

  /** Memory that does not cross a segment boundary. */
  ghost predicate InWindow(l: Limits, addr: nat, len: nat) {
    len > 0 && (l.boundary > 0 ==> addr / l.boundary == (addr + len - 1) / l.boundary)
  }

  ghost predicate AllInWindows(l: Limits, sg: seq<Entry>) {
    forall i | 0 <= i < |sg| :: InWindow(l, sg[i].addr, sg[i].length)
  }

  ghost predicate VecsInWindows(l: Limits, vs: seq<Vec>) {
    forall v | v in vs :: InWindow(l, v.addr, v.len)
  }

  /** A vector that joins an entry stays in its window. */
  lemma GluedInWindow(l: Limits, e: Entry, a: Vec, b: Vec)
    requires InWindow(l, e.addr, e.length) && InWindow(l, a.addr, a.len) && InWindow(l, b.addr, b.len)
    requires Glue(l, a, b) && e.addr + e.length == a.addr + a.len
    ensures InWindow(l, e.addr, e.length + b.len)
  {
  }

  /** blk_rq_map_sg, its data entries: they name the memory of the data, byte for byte and in
      order; they are as few as possible; and none is too long, or crosses a segment boundary,
      unless a vector does. */
  method MapSg(l: Limits, vs: seq<Vec>) returns (sg: seq<Entry>)
    ensures |sg| == Segs(Greedy(l, vs))
    ensures Named(sg) == Memory(vs)
    ensures forall cuts | Valid(l, vs, cuts) :: |sg| <= Segs(cuts)
    ensures (forall v | v in vs :: v.len <= l.maxSize) ==> Within(l, sg)
    ensures VecsInWindows(l, vs) ==> AllInWindows(l, sg)
  {
    hide Glue, Greedy, Segs, LastSize, Memory, Named, Valid, Within, InWindow;
    sg := [];
    var i := 0;
    GreedyEmpty(l);
    assert vs[..0] == [];
    while i < |vs|
      invariant i <= |vs|
      invariant |sg| == Segs(Greedy(l, vs[..i]))
      invariant i > 0 ==> sg != [] && sg[|sg|-1].length == LastSize(vs[..i], Greedy(l, vs[..i]))
      invariant i > 0 ==> sg[|sg|-1].addr + sg[|sg|-1].length == vs[i-1].addr + vs[i-1].len
      invariant Named(sg) == Memory(vs[..i])
      invariant (forall v | v in vs :: v.len <= l.maxSize) ==> Within(l, sg)
      invariant VecsInWindows(l, vs) ==> AllInWindows(l, sg)
    {
      GreedyNext(l, vs, i);
      var bvec := vs[i];
      if i > 0 && l.cluster && sg[|sg|-1].length + bvec.len <= l.maxSize && Glue(l, vs[i-1], bvec) {
        if VecsInWindows(l, vs) {
          GluedInWindow(l, sg[|sg|-1], vs[i-1], bvec);
        }
        GlueMeets(l, vs[i-1], bvec);
        NamedGrows(l, sg, bvec.len);
        sg := sg[|sg|-1 := sg[|sg|-1].(length := sg[|sg|-1].length + bvec.len)];
      } else {
        NamedAppends(l, sg, Entry(bvec.addr, bvec.len));
        sg := sg + [Entry(bvec.addr, bvec.len)];
      }
      i := i + 1;
    }
    assert vs[..|vs|] == vs;
    forall cuts | Valid(l, vs, cuts) ensures |sg| <= Segs(cuts) {
      GreedyAhead(l, vs, cuts);
    }
  }

  lemma GreedyEmpty(l: Limits)
    ensures Segs(Greedy(l, [])) == 0 && Memory([]) == [] && Named([]) == [] && Within(l, [])
  {
  }

  lemma GlueMeets(l: Limits, a: Vec, b: Vec)
    requires Glue(l, a, b)
    ensures b.addr == a.addr + a.len
  {
  }

  lemma NamedGrows(l: Limits, sg: seq<Entry>, n: nat)
    requires sg != []
    ensures var e := sg[|sg|-1];
            var sg' := sg[|sg|-1 := e.(length := e.length + n)];
            && Named(sg') == Named(sg) + Span(e.addr + e.length, n)
            && (Within(l, sg) && e.length + n <= l.maxSize ==> Within(l, sg'))
  {
    var e := sg[|sg|-1];
    var sg' := sg[|sg|-1 := e.(length := e.length + n)];
    assert sg'[..|sg|-1] == sg[..|sg|-1];
    assert Span(e.addr, e.length + n) == Span(e.addr, e.length) + Span(e.addr + e.length, n);
  }

  lemma NamedAppends(l: Limits, sg: seq<Entry>, e: Entry)
    ensures Named(sg + [e]) == Named(sg) + Span(e.addr, e.length)
    ensures Within(l, sg) && e.length <= l.maxSize ==> Within(l, sg + [e])
  {
    Snoc(sg, e);
  }

  lemma GreedyNext(l: Limits, vs: seq<Vec>, i: nat)
    requires i < |vs|
    ensures var g, g' := Greedy(l, vs[..i]), Greedy(l, vs[..i+1]);
            var cut := !(i > 0 && Joins(l, LastSize(vs[..i], g), vs[i-1], vs[i]));
            && Segs(g') == Segs(g) + (if cut then 1 else 0)
            && LastSize(vs[..i+1], g') == vs[i].len + (if cut then 0 else LastSize(vs[..i], g))
    ensures Memory(vs[..i+1]) == Memory(vs[..i]) + Span(vs[i].addr, vs[i].len)
  {
    hide Joins;
    var w := vs[..i+1];
    assert w[..i] == vs[..i];
    Snoc(Greedy(l, vs[..i]), Greedy(l, w)[i]);
    Next(l, w, Greedy(l, w));
  }
}
