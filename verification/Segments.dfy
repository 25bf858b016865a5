/** Physical segments of a request: the incremental count against a recount. */
module Segments {

  /** A bio_vec: its physical address and length, and whether its page may be bounced. */
  datatype Vec = Vec(addr: nat, len: nat, high: bool)

  /** Queue limits; `boundary` is seg_boundary_mask + 1. */
  datatype Limits = Limits(cluster: bool, maxSize: nat, boundary: nat, maxSegments: nat)

  /** BIOVEC_PHYS_MERGEABLE and BIOVEC_SEG_BOUNDARY */
  predicate Glue(l: Limits, a: Vec, b: Vec) {
    && a.addr + a.len == b.addr
    && (l.boundary > 0 ==> a.addr / l.boundary == (b.addr + b.len - 1) / l.boundary)
  }

  // ---------------------------------------------------------------------------
  // Splits of a sequence of vectors into segments
  // ---------------------------------------------------------------------------

  /** The size of the last segment; cuts[i] says that vs[i] starts a segment. */
  function LastSize(vs: seq<Vec>, cuts: seq<bool>): nat
    requires |vs| == |cuts|
  {
    if vs == [] then 0
    else
      var n := |vs| - 1;
      vs[n].len + if cuts[n] then 0 else LastSize(vs[..n], cuts[..n])
  }

  /** The size of the first segment. */
  function FirstSize(vs: seq<Vec>, cuts: seq<bool>): nat
    requires |vs| == |cuts|
  {
    if vs == [] then 0
    else vs[0].len + if |vs| > 1 && !cuts[1] then FirstSize(vs[1..], cuts[1..]) else 0
  }

  function Segs(cuts: seq<bool>): nat {
    if cuts == [] then 0 else Segs(cuts[..|cuts| - 1]) + if cuts[|cuts| - 1] then 1 else 0
  }

  /** May vector v join a segment of size s that ends with p? */
  predicate Joins(l: Limits, s: nat, p: Vec, v: Vec) {
    l.cluster && s + v.len <= l.maxSize && Glue(l, p, v)
  }

  /** A split into segments that the hardware takes. */
  ghost predicate Valid(l: Limits, vs: seq<Vec>, cuts: seq<bool>)
    decreases |vs|
  {
    && |vs| == |cuts|
    && (vs != [] ==>
          var n := |vs| - 1;
          && Valid(l, vs[..n], cuts[..n])
          && (cuts[n] || (n > 0 && Joins(l, LastSize(vs[..n], cuts[..n]), vs[n-1], vs[n]))))
  }

  // ---------------------------------------------------------------------------
  // blk_rq_map_sg splits greedily, and no split has fewer segments
  // ---------------------------------------------------------------------------

  function Greedy(l: Limits, vs: seq<Vec>): (cuts: seq<bool>)
    ensures |cuts| == |vs|
    decreases |vs|
  {
    if vs == [] then []
    else
      var n := |vs| - 1;
      var g := Greedy(l, vs[..n]);
      g + [!(n > 0 && Joins(l, LastSize(vs[..n], g), vs[n-1], vs[n]))]
  }

  lemma Snoc<T>(s: seq<T>, x: T)
    ensures (s + [x])[..|s|] == s && (s + [x])[|s|] == x
  {
  }

  lemma {:induction false} GreedyValid(l: Limits, vs: seq<Vec>)
    ensures Valid(l, vs, Greedy(l, vs))
    decreases |vs|
  {
    if vs != [] {
      hide Joins, LastSize;
      var n := |vs| - 1;
      GreedyValid(l, vs[..n]);
      Snoc(Greedy(l, vs[..n]), !(n > 0 && Joins(l, LastSize(vs[..n], Greedy(l, vs[..n])), vs[n-1], vs[n])));
    }
  }

  /** Greedy splitting is ahead of any other: fewer segments, or as many with less in the last. */
  ghost predicate Ahead(n: nat, s: nat, n': nat, s': nat) {
    n < n' || (n == n' && s <= s')
  }

  lemma Next(l: Limits, vs: seq<Vec>, cuts: seq<bool>)
    requires vs != [] && |vs| == |cuts|
    ensures var n := |vs| - 1;
            && Segs(cuts) == Segs(cuts[..n]) + (if cuts[n] then 1 else 0)
            && LastSize(vs, cuts) == vs[n].len + if cuts[n] then 0 else LastSize(vs[..n], cuts[..n])
  {
  }

  lemma {:induction false} GreedyAhead(l: Limits, vs: seq<Vec>, cuts: seq<bool>)
    requires Valid(l, vs, cuts)
    ensures Ahead(Segs(Greedy(l, vs)), LastSize(vs, Greedy(l, vs)), Segs(cuts), LastSize(vs, cuts))
    decreases |vs|
  {
    if vs != [] {
      var n := |vs| - 1;
      var g := Greedy(l, vs);
      GreedyAhead(l, vs[..n], cuts[..n]);
      Snoc(Greedy(l, vs[..n]), g[n]);
      Next(l, vs, g);
      Next(l, vs, cuts);
      assert g[..n] == Greedy(l, vs[..n]);
      hide Segs, LastSize, Glue;
    }
  }

  // ---------------------------------------------------------------------------
  // __blk_recalc_rq_segments: a vector on a high page is a segment of its own
  // ---------------------------------------------------------------------------

  function Recalc(l: Limits, vs: seq<Vec>): (cuts: seq<bool>)
    ensures |cuts| == |vs|
    decreases |vs|
  {
    if vs == [] then []
    else
      var n := |vs| - 1;
      var g := Recalc(l, vs[..n]);
      g + [!(n > 0 && !vs[n].high && !vs[n-1].high && Joins(l, LastSize(vs[..n], g), vs[n-1], vs[n]))]
  }

  /** A vector on a high page shares no segment. */
  ghost predicate HighApart(vs: seq<Vec>, cuts: seq<bool>) {
    |vs| == |cuts| && forall j | 0 < j < |vs| && (vs[j - 1].high || vs[j].high) :: cuts[j]
  }

  lemma ApartSnoc(vs: seq<Vec>, g: seq<bool>, b: bool)
    requires vs != [] && HighApart(vs[..|vs| - 1], g)
    requires |vs| > 1 && (vs[|vs| - 2].high || vs[|vs| - 1].high) ==> b
    ensures HighApart(vs, g + [b])
  {
    var n := |vs| - 1;
    forall j | 0 < j < |vs| && (vs[j - 1].high || vs[j].high) ensures (g + [b])[j] {
      if j < n {
        assert vs[..n][j - 1] == vs[j - 1] && vs[..n][j] == vs[j];
      }
    }
  }

  lemma {:induction false} RecalcApart(l: Limits, vs: seq<Vec>)
    ensures HighApart(vs, Recalc(l, vs))
    decreases |vs|
  {
    if vs != [] {
      hide Joins, LastSize, HighApart;
      var n := |vs| - 1;
      var g := Recalc(l, vs[..n]);
      RecalcApart(l, vs[..n]);
      ApartSnoc(vs, g, !(n > 0 && !vs[n].high && !vs[n-1].high && Joins(l, LastSize(vs[..n], g), vs[n-1], vs[n])));
    } else {
      assert HighApart([], []);
    }
  }

  /** No split that keeps high pages apart has fewer segments than a recount finds. */
  lemma {:induction false} RecalcAhead(l: Limits, vs: seq<Vec>, cuts: seq<bool>)
    requires Valid(l, vs, cuts) && HighApart(vs, cuts)
    ensures Ahead(Segs(Recalc(l, vs)), LastSize(vs, Recalc(l, vs)), Segs(cuts), LastSize(vs, cuts))
    decreases |vs|
  {
    if vs != [] {
      var n := |vs| - 1;
      var g := Recalc(l, vs);
      ApartPrefix(vs, cuts, n);
      RecalcAhead(l, vs[..n], cuts[..n]);
      Snoc(Recalc(l, vs[..n]), g[n]);
      Next(l, vs, g);
      Next(l, vs, cuts);
      assert g[..n] == Recalc(l, vs[..n]);
      assert n > 0 && (vs[n-1].high || vs[n].high) ==> cuts[n];
      hide Segs, LastSize, Glue, HighApart;
    }
  }

  lemma ApartPrefix(vs: seq<Vec>, cuts: seq<bool>, n: nat)
    requires HighApart(vs, cuts) && n <= |vs|
    ensures HighApart(vs[..n], cuts[..n])
  {
    forall j | 0 < j < n && (vs[..n][j - 1].high || vs[..n][j].high) ensures cuts[..n][j] {
      assert vs[j - 1].high || vs[j].high;
    }
  }

  lemma {:induction false} RecalcValid(l: Limits, vs: seq<Vec>)
    ensures Valid(l, vs, Recalc(l, vs))
    decreases |vs|
  {
    if vs != [] {
      hide Joins, LastSize;
      var n := |vs| - 1;
      var g := Recalc(l, vs[..n]);
      RecalcValid(l, vs[..n]);
      Snoc(g, Recalc(l, vs)[n]);
    }
  }

  // ---------------------------------------------------------------------------
  // Appending and joining splits
  // ---------------------------------------------------------------------------

  lemma {:induction false} FirstIsCut(l: Limits, vs: seq<Vec>, cuts: seq<bool>)
    requires Valid(l, vs, cuts) && vs != []
    ensures cuts[0]
    decreases |vs|
  {
    if |vs| > 1 {
      FirstIsCut(l, vs[..|vs|-1], cuts[..|vs|-1]);
    }
  }

  lemma {:induction false} SegsConcat(a: seq<bool>, b: seq<bool>)
    ensures Segs(a + b) == Segs(a) + Segs(b)
    decreases |b|
  {
    if b == [] {
      assert a + b == a;
    } else {
      var b' := b[..|b|-1];
      SegsConcat(a, b');
      assert (a + b)[..|a + b| - 1] == a + b';
    }
  }

  lemma ConcatPrefix<T>(a: seq<T>, b: seq<T>)
    requires b != []
    ensures (a + b)[..|a + b| - 1] == a + b[..|b|-1] && (a + b)[|a + b| - 1] == b[|b|-1]
  {
  }

  /** One split after another. */
  lemma {:induction false} AppendValid(l: Limits, v1: seq<Vec>, c1: seq<bool>, v2: seq<Vec>, c2: seq<bool>)
    requires Valid(l, v1, c1) && Valid(l, v2, c2) && v2 != []
    ensures Valid(l, v1 + v2, c1 + c2) && LastSize(v1 + v2, c1 + c2) == LastSize(v2, c2)
    decreases |v2|
  {
    var n := |v2| - 1;
    ConcatPrefix(v1, v2);
    ConcatPrefix(c1, c2);
    if n == 0 {
      assert v1 + v2[..0] == v1 && c1 + c2[..0] == c1;
    } else {
      AppendValid(l, v1, c1, v2[..n], c2[..n]);
      assert (v1 + v2)[|v1| + n - 1] == v2[n-1];
    }
  }

  /** The last segment of one split runs on into the first of the next. */
  ghost function Joined(c1: seq<bool>, c2: seq<bool>): seq<bool>
    requires c2 != []
  {
    c1 + c2[0 := false]
  }

  lemma {:induction false} FirstPrefix(v: seq<Vec>, c: seq<bool>)
    requires |v| == |c| && |v| > 1
    ensures FirstSize(v[..|v|-1], c[..|v|-1]) <= FirstSize(v, c)
    decreases |v|
  {
    var n := |v| - 1;
    if n > 1 && !c[1] {
      FirstPrefix(v[1..], c[1..]);
      assert v[1..][..n-1] == v[..n][1..] && c[1..][..n-1] == c[..n][1..];
    }
  }

  lemma {:induction false} OneSegment(v: seq<Vec>, c: seq<bool>)
    requires |v| == |c| && v != [] && Segs(c) == 1 && c[0]
    ensures LastSize(v, c) == FirstSize(v, c)
    ensures |v| > 1 ==> !c[|v|-1] && FirstSize(v, c) == FirstSize(v[..|v|-1], c[..|v|-1]) + v[|v|-1].len
    decreases |v|
  {
    var n := |v| - 1;
    if n > 0 {
      CutCounts(c[..n], 0);
      OneSegment(v[..n], c[..n]);
      FirstGrows(v, c);
    }
  }

  lemma {:induction false} CutCounts(c: seq<bool>, i: nat)
    requires i < |c| && c[i]
    ensures Segs(c) >= 1
    decreases |c|
  {
    if i < |c| - 1 {
      CutCounts(c[..|c|-1], i);
    }
  }

  /** The first segment takes in the last vector if nothing in between is cut. */
  lemma {:induction false} FirstGrows(v: seq<Vec>, c: seq<bool>)
    requires |v| == |c| && |v| > 1 && c[0] && Segs(c) == 1
    ensures FirstSize(v, c) == FirstSize(v[..|v|-1], c[..|v|-1]) + v[|v|-1].len
  {
    NoneCut(c);
    FirstGrowsFrom(v, c);
  }

  lemma {:induction false} NoneCut(c: seq<bool>)
    requires c != [] && c[0] && Segs(c) == 1
    ensures forall i | 1 <= i < |c| :: !c[i]
    decreases |c|
  {
    if |c| > 1 {
      CutCounts(c[..|c|-1], 0);
      NoneCut(c[..|c|-1]);
    }
  }

  lemma {:induction false} FirstGrowsFrom(v: seq<Vec>, c: seq<bool>)
    requires |v| == |c| && |v| > 1 && forall i | 1 <= i < |c| :: !c[i]
    ensures FirstSize(v, c) == FirstSize(v[..|v|-1], c[..|v|-1]) + v[|v|-1].len
    decreases |v|
  {
    var n := |v| - 1;
    if n > 1 {
      FirstGrowsFrom(v[1..], c[1..]);
      assert v[1..][..n-1] == v[..n][1..] && c[1..][..n-1] == c[..n][1..];
    } else {
      assert v[1..] == [v[1]] && c[1..] == [c[1]];
    }
  }

  lemma {:induction false} JoinValid(l: Limits, v1: seq<Vec>, c1: seq<bool>, v2: seq<Vec>, c2: seq<bool>)
    requires Valid(l, v1, c1) && Valid(l, v2, c2) && v1 != [] && v2 != []
    requires l.cluster && Glue(l, v1[|v1|-1], v2[0]) && LastSize(v1, c1) + FirstSize(v2, c2) <= l.maxSize
    ensures Valid(l, v1 + v2, Joined(c1, c2))
    ensures LastSize(v1 + v2, Joined(c1, c2)) == LastSize(v2, c2) + if Segs(c2) == 1 then LastSize(v1, c1) else 0
    decreases |v2|
  {
    var n := |v2| - 1;
    var c2' := c2[0 := false];
    FirstIsCut(l, v2, c2);
    ConcatPrefix(v1, v2);
    ConcatPrefix(c1, c2');
    if n == 0 {
      assert v1 + v2[..0] == v1 && c1 + c2'[..0] == c1;
      assert c2[..0] == [];
    } else {
      FirstPrefix(v2, c2);
      assert c2'[..n] == c2[..n][0 := false];
      JoinValid(l, v1, c1, v2[..n], c2[..n]);
      assert (v1 + v2)[|v1| + n - 1] == v2[n-1];
      CutCounts(c2[..n], 0);
      JoinStep(l, v2, c2);
    }
  }

  /** Within the first segment of the second split, its size and the last size agree. */
  lemma JoinStep(l: Limits, v2: seq<Vec>, c2: seq<bool>)
    requires |v2| == |c2| && |v2| > 1 && c2[0]
    ensures var n := |v2| - 1;
            Segs(c2[..n]) == 1 && !c2[n] ==> LastSize(v2[..n], c2[..n]) + v2[n].len == FirstSize(v2, c2) && Segs(c2) == 1
  {
    var n := |v2| - 1;
    if Segs(c2[..n]) == 1 && !c2[n] {
      OneSegment(v2, c2);
      OneSegment(v2[..n], c2[..n]);
    }
  }

  lemma {:induction false} FirstConcat(v1: seq<Vec>, c1: seq<bool>, v2: seq<Vec>, c2: seq<bool>)
    requires |v1| == |c1| && |v2| == |c2| && v1 != [] && v2 != []
    ensures FirstSize(v1 + v2, c1 + c2)
         == FirstSize(v1, c1) + if (forall i | 1 <= i < |c1| :: !c1[i]) && !c2[0] then FirstSize(v2, c2) else 0
    decreases |v1|
  {
    assert (v1 + v2)[1..] == v1[1..] + v2 && (c1 + c2)[1..] == c1[1..] + c2;
    if |v1| == 1 {
      assert v1[1..] + v2 == v2 && c1[1..] + c2 == c2;
    } else {
      FirstConcat(v1[1..], c1[1..], v2, c2);
      assert c1[1] == c1[1..][0];
      assert (forall i | 1 <= i < |c1| :: !c1[i]) <==> !c1[1] && (forall i | 1 <= i < |c1[1..]| :: !c1[1..][i]);
    }
  }

  lemma FirstIgnoresFirst(v: seq<Vec>, c: seq<bool>, b: bool)
    requires |v| == |c| && v != []
    ensures FirstSize(v, c[0 := b]) == FirstSize(v, c)
  {
    if |v| > 1 {
      assert c[0 := b][1..] == c[1..];
    }
  }

  lemma {:induction false} SomeCut(c: seq<bool>)
    requires c != [] && c[0] && Segs(c) > 1
    ensures exists i :: 1 <= i < |c| && c[i]
    decreases |c|
  {
    var n := |c| - 1;
    if n > 0 && !c[n] {
      SomeCut(c[..n]);
      var i :| 1 <= i < n && c[..n][i];
      assert c[i];
    }
  }

  // ---------------------------------------------------------------------------
  // Bios and requests
  // ---------------------------------------------------------------------------

  /** bi_io_vec, bi_seg_front_size, bi_seg_back_size, bi_phys_segments and BIO_SEG_VALID */
  datatype Bio = Bio(vecs: seq<Vec>, front: nat, back: nat, nr: nat, valid: bool)

  /** The bio chain of a request and its nr_phys_segments. */
  datatype Req = Req(bios: seq<Bio>, nr: nat)

  function Flat(bios: seq<Bio>): seq<Vec> {
    if bios == [] then [] else Flat(bios[..|bios|-1]) + bios[|bios|-1].vecs
  }

  function Max(a: nat, b: nat): nat {
    if a > b then a else b
  }

  /** blk_recount_segments, unless the bio's count is valid */
  function Recounted(l: Limits, b: Bio): Bio {
    if b.valid then b
    else
      var cuts := Recalc(l, b.vecs);
      Bio(b.vecs, Max(b.front, FirstSize(b.vecs, cuts)), Max(b.back, LastSize(b.vecs, cuts)), Segs(cuts), true)
  }

  function Head(r: Req): Bio
    requires r.bios != []
  {
    r.bios[0]
  }

  function Tail(r: Req): Bio
    requires r.bios != []
  {
    r.bios[|r.bios| - 1]
  }

  function SetHead(r: Req, b: Bio): Req
    requires r.bios != []
  {
    r.(bios := r.bios[0 := b])
  }

  function SetTail(r: Req, b: Bio): Req
    requires r.bios != []
  {
    r.(bios := r.bios[|r.bios| - 1 := b])
  }

  function NewReq(l: Limits, b: Bio): Req {
    var b' := Recounted(l, b);
    Req([b'], b'.nr)
  }

  /** ll_back_merge_fn and the relinking of __make_request; the result says if it merged. */
  function BackMerge(l: Limits, r: Req, b: Bio): (Req, bool)
    requires r.bios != []
  {
    var r1 := SetTail(r, Recounted(l, Tail(r)));
    var b' := Recounted(l, b);
    if r.nr + b'.nr > l.maxSegments then (r1, false) else (Req(r1.bios + [b'], r.nr + b'.nr), true)
  }

  /** ll_front_merge_fn */
  function FrontMerge(l: Limits, r: Req, b: Bio): (Req, bool)
    requires r.bios != []
  {
    var b' := Recounted(l, b);
    var r1 := SetHead(r, Recounted(l, Head(r)));
    if r.nr + b'.nr > l.maxSegments then (r1, false) else (Req([b'] + r1.bios, r.nr + b'.nr), true)
  }

  /** blk_phys_contig_segment */
  predicate Contiguous(l: Limits, b: Bio, nxt: Bio) {
    && l.cluster
    && b.back + nxt.front <= l.maxSize
    && (b.vecs == [] || (nxt.vecs != [] && Glue(l, b.vecs[|b.vecs|-1], nxt.vecs[0])))
  }

  /** ll_merge_requests_fn and attempt_merge: the two requests afterwards, and whether the first
      has absorbed the second.  The sizes change even when the merge is refused. */
  function MergeReqs(l: Limits, r: Req, n: Req): (Req, Req, bool)
    requires r.bios != [] && n.bios != []
  {
    var size := Tail(r).back + Head(n).front;
    var contig := Contiguous(l, Tail(r), Head(n));
    var r1 := if contig && r.nr == 1 then SetHead(r, Head(r).(front := size)) else r;
    var n1 := if contig && n.nr == 1 then SetTail(n, Tail(n).(back := size)) else n;
    var total := r.nr + n.nr - if contig then 1 else 0;
    if total > l.maxSegments || total < 0 then (r1, n1, false)
    else (Req(r1.bios + n1.bios, total), n1, true)
  }

  /** blk_recalc_rq_segments of what a partial completion leaves. */
  function Recalculated(l: Limits, bios: seq<Bio>): Req
    requires bios != []
  {
    var vs := Flat(bios);
    var cuts := Recalc(l, vs);
    var r1 := SetHead(Req(bios, Segs(cuts)), bios[0].(front := Max(bios[0].front, FirstSize(vs, cuts))));
    SetTail(r1, Tail(r1).(back := Max(Tail(r1).back, LastSize(vs, cuts))))
  }

  // ---------------------------------------------------------------------------
  // The invariant: the count is that of a split whose end segments the sizes cover
  // ---------------------------------------------------------------------------

  ghost predicate Fits(l: Limits, vs: seq<Vec>, cuts: seq<bool>, nr: int, front: nat, back: nat) {
    && Valid(l, vs, cuts)
    && Segs(cuts) == nr
    && FirstSize(vs, cuts) <= front
    && LastSize(vs, cuts) <= back
  }

  ghost predicate Covers(l: Limits, vs: seq<Vec>, nr: int, front: nat, back: nat) {
    exists cuts :: Fits(l, vs, cuts, nr, front, back)
  }

  /** A bio with data whose count, once valid, is right. */
  ghost predicate BioOk(l: Limits, b: Bio) {
    b.vecs != [] && (b.valid ==> Covers(l, b.vecs, b.nr, b.front, b.back))
  }

  ghost predicate ReqOk(l: Limits, r: Req) {
    && r.bios != []
    && (forall i | 0 <= i < |r.bios| :: r.bios[i].vecs != [])
    && Covers(l, Flat(r.bios), r.nr, Head(r).front, Tail(r).back)
  }

  lemma RecalcFits(l: Limits, vs: seq<Vec>, front: nat, back: nat)
    ensures var cuts := Recalc(l, vs);
            Fits(l, vs, cuts, Segs(cuts), Max(front, FirstSize(vs, cuts)), Max(back, LastSize(vs, cuts)))
  {
    hide Valid;
    RecalcValid(l, vs);
  }

  lemma RecountedOk(l: Limits, b: Bio)
    requires BioOk(l, b)
    ensures var b' := Recounted(l, b);
            b'.valid && b'.vecs == b.vecs && b.front <= b'.front && b.back <= b'.back && BioOk(l, b')
  {
    hide Fits;
    if !b.valid {
      RecalcFits(l, b.vecs, b.front, b.back);
    }
  }

  lemma RecountedGrows(l: Limits, b: Bio)
    ensures var b' := Recounted(l, b); b'.vecs == b.vecs && b.front <= b'.front && b.back <= b'.back
  {
  }

  lemma FlatOne(b: Bio)
    ensures Flat([b]) == b.vecs
  {
    assert [b][..0] == [];
  }

  lemma {:induction false} FlatConcat(a: seq<Bio>, b: seq<Bio>)
    ensures Flat(a + b) == Flat(a) + Flat(b)
    decreases |b|
  {
    if b == [] {
      assert a + b == a;
    } else {
      FlatConcat(a, b[..|b|-1]);
      ConcatPrefix(a, b);
    }
  }

  lemma {:induction false} FlatSame(a: seq<Bio>, b: seq<Bio>)
    requires |a| == |b| && forall i | 0 <= i < |a| :: a[i].vecs == b[i].vecs
    ensures Flat(a) == Flat(b)
    decreases |a|
  {
    if a != [] {
      FlatSame(a[..|a|-1], b[..|a|-1]);
    }
  }

  lemma CoversMore(l: Limits, vs: seq<Vec>, nr: int, front: nat, back: nat, front': nat, back': nat)
    requires Covers(l, vs, nr, front, back) && front <= front' && back <= back'
    ensures Covers(l, vs, nr, front', back')
  {
    var cuts :| Fits(l, vs, cuts, nr, front, back);
    assert Fits(l, vs, cuts, nr, front', back');
  }

  lemma NewReqOk(l: Limits, b: Bio)
    requires BioOk(l, b)
    ensures ReqOk(l, NewReq(l, b))
  {
    hide Covers, Recounted;
    RecountedOk(l, b);
    FlatOne(Recounted(l, b));
  }

  /** Two splits, one after the other. */
  lemma CoversAppend(l: Limits, v1: seq<Vec>, n1: int, f1: nat, b1: nat, v2: seq<Vec>, n2: int, f2: nat, b2: nat)
    requires Covers(l, v1, n1, f1, b1) && Covers(l, v2, n2, f2, b2) && v1 != [] && v2 != []
    ensures Covers(l, v1 + v2, n1 + n2, f1, b2)
  {
    var c1 :| Fits(l, v1, c1, n1, f1, b1);
    var c2 :| Fits(l, v2, c2, n2, f2, b2);
    hide Valid, FirstSize, LastSize, Segs;
    assert Valid(l, v1, c1) && Valid(l, v2, c2);
    SplitSizes(l, v1, c1);
    SplitSizes(l, v2, c2);
    AppendValid(l, v1, c1, v2, c2);
    SegsConcat(c1, c2);
    FirstIsCut(l, v2, c2);
    FirstConcat(v1, c1, v2, c2);
    assert Fits(l, v1 + v2, c1 + c2, n1 + n2, f1, b2);
  }

  lemma SplitSizes(l: Limits, v: seq<Vec>, c: seq<bool>)
    requires Valid(l, v, c)
    ensures |v| == |c|
  {
  }

  lemma {:induction false} SegsUncut(c: seq<bool>)
    requires c != [] && c[0]
    ensures Segs(c[0 := false]) == Segs(c) - 1
  {
    assert c == [true] + c[1..] && c[0 := false] == [false] + c[1..];
    SegsConcat([true], c[1..]);
    SegsConcat([false], c[1..]);
    assert [true][..0] == [] && [false][..0] == [];
  }

  /** Two splits whose meeting segments become one. */
  lemma CoversJoin(l: Limits, v1: seq<Vec>, n1: int, f1: nat, b1: nat, v2: seq<Vec>, n2: int, f2: nat, b2: nat)
    requires Covers(l, v1, n1, f1, b1) && Covers(l, v2, n2, f2, b2) && v1 != [] && v2 != []
    requires l.cluster && b1 + f2 <= l.maxSize && Glue(l, v1[|v1|-1], v2[0])
    ensures Covers(l, v1 + v2, n1 + n2 - 1, if n1 == 1 then b1 + f2 else f1, if n2 == 1 then b1 + f2 else b2)
  {
    var c1 :| Fits(l, v1, c1, n1, f1, b1);
    var c2 :| Fits(l, v2, c2, n2, f2, b2);
    hide Valid, FirstSize, LastSize, Segs, Glue;
    SplitSizes(l, v1, c1);
    SplitSizes(l, v2, c2);
    FirstIsCut(l, v1, c1);
    FirstIsCut(l, v2, c2);
    JoinValid(l, v1, c1, v2, c2);
    SegsConcat(c1, c2[0 := false]);
    SegsUncut(c2);
    JoinFirst(v1, c1, v2, c2);
    JoinSizes(v1, c1);
    JoinSizes(v2, c2);
    assert Fits(l, v1 + v2, Joined(c1, c2), n1 + n2 - 1, if n1 == 1 then b1 + f2 else f1, if n2 == 1 then b1 + f2 else b2);
  }

  lemma JoinSizes(v: seq<Vec>, c: seq<bool>)
    requires |v| == |c| && v != [] && c[0]
    ensures Segs(c) == 1 ==> LastSize(v, c) == FirstSize(v, c)
  {
    if Segs(c) == 1 {
      OneSegment(v, c);
    }
  }

  lemma JoinFirst(v1: seq<Vec>, c1: seq<bool>, v2: seq<Vec>, c2: seq<bool>)
    requires |v1| == |c1| && |v2| == |c2| && v1 != [] && v2 != [] && c1[0]
    ensures FirstSize(v1 + v2, Joined(c1, c2)) == FirstSize(v1, c1) + if Segs(c1) == 1 then FirstSize(v2, c2) else 0
  {
    hide FirstSize;
    FirstConcat(v1, c1, v2, c2[0 := false]);
    FirstIgnoresFirst(v2, c2, false);
    CutCounts(c1, 0);
    if Segs(c1) == 1 {
      NoneCut(c1);
    } else {
      SomeCut(c1);
    }
  }
}
