/** The V(R) I/O scheduler: its cached neighbours of the head position, and draining it. */
module Vr {
  import opened Common
  import opened RequestTree

  datatype Data = Data(
    sort: seq<Rq>,
    sync: seq<Rq>,          // fifo_list[SYNC]
    async: seq<Rq>,         // fifo_list[ASYNC]
    next: Option<Rq>,       // next_rq
    prev: Option<Rq>,       // prev_rq
    nbatched: nat,
    last: int,              // last_sector
    forward: bool,          // head_dir
    nrSorted: int,          // the queue's nr_sorted
    dispatch: seq<Rq>
  )

  /** fifo_expire, fifo_batch and rev_penalty; a zero expiry keeps requests off the fifo. */
  datatype Config = Config(syncExpire: nat, asyncExpire: nat, fifoBatch: nat, revPenalty: nat)

  const INT_MAX: nat := 0x7fff_ffff

  function Init(): Data {
    Data([], [], [], None, None, 0, 0, true, 0, [])
  }

  // ---------------------------------------------------------------------------
  // Operations
  // ---------------------------------------------------------------------------

  /** vr_del_rq_rb */
  function Del(d: Data, rq: Rq): Data {
    d.(sort := Erase(d.sort, rq),
       next := if d.next == Some(rq) then Successor(d.sort, rq) else d.next,
       prev := if d.next != Some(rq) && d.prev == Some(rq) then Predecessor(d.sort, rq) else d.prev)
  }

  /** vr_remove_request */
  function Remove(d: Data, rq: Rq): Data {
    Del(d.(sync := Erase(d.sync, rq), async := Erase(d.async, rq)), rq)
  }

  /** vr_move_request */
  function Move(d: Data, rq: Rq): Data {
    var d1 := d.(forward := rq.sector > d.last, last := rq.sector,
                 next := Successor(d.sort, rq), prev := Predecessor(d.sort, rq));
    Remove(d1, rq).(dispatch := d.dispatch + [rq], nbatched := d.nbatched + 1, nrSorted := d.nrSorted - 1)
  }

  /** The insertion of vr_add_rq_rb without an alias. */
  function Link(d: Data, rq: Rq): Data {
    d.(sort := Insert(d.sort, rq),
       next := if rq.sector >= d.last && (d.next.None? || d.next.value.sector > rq.sector) then Some(rq) else d.next,
       prev := if rq.sector < d.last && (d.prev.None? || d.prev.value.sector < rq.sector) then Some(rq) else d.prev)
  }

  /** vr_add_rq_rb */
  function AddSorted(d: Data, rq: Rq): Data {
    var alias := Alias(d.sort, rq.sector);
    Link(if alias.Some? then Move(d, alias.value) else d, rq)
  }

  /** vr_add_request, with the count that elv_insert keeps */
  function AddRequest(c: Config, d: Data, now: int, rq: Rq): Data {
    var expire := if rq.sync then c.syncExpire else c.asyncExpire;
    var rq' := if expire != 0 then rq.(expires := now + expire) else rq;
    var d1 := AddSorted(d.(nrSorted := d.nrSorted + 1), rq');
    if expire == 0 then d1
    else if rq.sync then d1.(sync := d1.sync + [rq']) else d1.(async := d1.async + [rq'])
  }

  /** vr_merged_request after a front merge: the request leaves the tree by its old place. */
  function FrontMerged(d: Data, rq: Rq, sector: int): Data {
    var rq' := rq.(sector := sector);
    var d1 := Del(d, rq);
    AddSorted(d1.(sync := Subst(d1.sync, rq, rq'), async := Subst(d1.async, rq, rq')), rq')
  }

  function Renamed(r: Option<Rq>, x: Rq, y: Rq): Option<Rq> {
    if r == Some(x) then Some(y) else r
  }

  predicate OnFifo(d: Data, r: Rq) {
    r in d.sync || r in d.async
  }

  /** A request takes over the expiry and the place on the fifo of an older one, even on the other
      fifo. */
  function TakeOver(d: Data, rq: Rq, next: Rq): Data {
    if OnFifo(d, rq) && OnFifo(d, next) && next.expires < rq.expires then
      var rq' := rq.(expires := next.expires);
      d.(sort := Subst(d.sort, rq, rq'), next := Renamed(d.next, rq, rq'), prev := Renamed(d.prev, rq, rq'),
         sync := Subst(Erase(d.sync, rq), next, rq'), async := Subst(Erase(d.async, rq), next, rq'))
    else d
  }

  /** vr_merged_requests, with the count that elv_merge_requests keeps */
  function MergedRequests(d: Data, rq: Rq, next: Rq): Data {
    Remove(TakeOver(d, rq, next), next).(nrSorted := d.nrSorted - 1)
  }

  function ExpiredFirst(f: seq<Rq>, now: int): Option<Rq> {
    if f != [] && f[0].expires < now then Some(f[0]) else None
  }

  /** vr_check_fifo */
  function CheckFifo(d: Data, now: int): Option<Rq> {
    var s, a := ExpiredFirst(d.sync, now), ExpiredFirst(d.async, now);
    if a.Some? && s.Some? then (if a.value.expires > s.value.expires then s else a)
    else if s.Some? then s else a
  }

  /** The distances ahead and behind as vr_choose_request compares them: do_div gives the remainder
      of the one that the head is moving towards. */
  function Penalties(c: Config, forward: bool, ahead: int, behind: int): (int, int) {
    var p := if c.revPenalty != 0 then c.revPenalty else INT_MAX;
    if forward then (ahead % p, behind) else (ahead, behind % p)
  }

  predicate GoesAhead(c: Config, forward: bool, ahead: int, behind: int) {
    Penalties(c, forward, ahead, behind).0 <= Penalties(c, forward, ahead, behind).1
  }

  /** vr_choose_request */
  function Choose(c: Config, d: Data): Option<Rq> {
    if d.prev.None? then d.next
    else if d.next.None? then d.prev
    else if GoesAhead(c, d.forward, d.next.value.sector - d.last, d.last - d.prev.value.sector) then d.next
    else d.prev
  }

  /** vr_dispatch_requests: the new state, and whether a request was dispatched. */
  function DispatchOne(c: Config, d: Data, now: int): (Data, bool) {
    var due := d.nbatched > c.fifoBatch;
    var d1 := if due then d.(nbatched := 0) else d;
    var expired := if due then CheckFifo(d1, now) else None;
    var rq := if expired.Some? then expired else Choose(c, d1);
    if rq.None? then (d1, false) else (Move(d1, rq.value), true)
  }

  // ---------------------------------------------------------------------------
  // The cache
  // ---------------------------------------------------------------------------

  function AtRank(t: seq<Rq>, r: int): Option<Rq> {
    if 0 <= r < |t| then Some(t[r]) else None
  }

  /** next_rq and prev_rq are the neighbours of the head position. */
  ghost predicate CacheOk(t: seq<Rq>, last: int, next: Option<Rq>, prev: Option<Rq>) {
    next == AtRank(t, Rank(t, last)) && prev == AtRank(t, Rank(t, last) - 1)
  }

  ghost predicate Sorted(d: Data) {
    Ascending(d.sort) && CacheOk(d.sort, d.last, d.next, d.prev)
  }

  /** The cache means: the smallest request at or above the head, and the largest below it. */
  lemma CacheMeans(d: Data)
    requires Sorted(d)
    ensures d.next.None? <==> forall r | r in d.sort :: r.sector < d.last
    ensures d.next.Some? ==> d.next.value in d.sort && d.next.value.sector >= d.last
                             && forall r | r in d.sort && r.sector >= d.last :: d.next.value.sector <= r.sector
    ensures d.prev.None? <==> forall r | r in d.sort :: r.sector >= d.last
    ensures d.prev.Some? ==> d.prev.value in d.sort && d.prev.value.sector < d.last
                             && forall r | r in d.sort && r.sector < d.last :: r.sector <= d.prev.value.sector
  {
    var k := Rank(d.sort, d.last);
    RankSplits(d.sort, d.last);
    if k < |d.sort| { assert d.sort[k] in d.sort; }
    if k > 0 { assert d.sort[k-1] in d.sort; }
  }

  /** What the BUG_ONs rule out. */
  ghost predicate Bug(d: Data) {
    d.next.Some? && d.prev.Some? && (d.next == d.prev || d.next.value.sector < d.prev.value.sector)
  }

  lemma NoBug(d: Data)
    requires Sorted(d)
    ensures !Bug(d)
  {
    CacheMeans(d);
  }

  /** The cache while a request is being moved: its neighbours, with the request still in the tree. */
  ghost predicate Beside(d: Data, rq: Rq) {
    Ascending(d.sort) && d.next == Successor(d.sort, rq) && d.prev == Predecessor(d.sort, rq)
  }

  /** The neighbours of a request are in order, and deleting it leaves them the neighbours. */
  lemma BesideNoBug(d: Data, rq: Rq)
    requires Beside(d, rq) && rq in d.sort
    ensures !Bug(d) && !Bug(Del(d, rq))
  {
    NotItself(d.sort, rq);
  }

  /** No BUG_ON of vr_del_rq_rb fires. */
  lemma DelNoBug(d: Data, rq: Rq)
    requires (Sorted(d) || Beside(d, rq)) && rq in d.sort
    ensures !Bug(Del(d, rq))
  {
    hide Del, Bug, Sorted, Beside;
    if Sorted(d) {
      DelSorted(d, rq);
      NoBug(Del(d, rq));
    } else {
      BesideNoBug(d, rq);
    }
  }

  lemma {:induction false} RankUnique(t: seq<Rq>, s: int, k: nat)
    requires k <= |t| && (forall i | 0 <= i < k :: t[i].sector < s) && (forall i | k <= i < |t| :: t[i].sector >= s)
    ensures Rank(t, s) == k
    decreases |t|
  {
    if t != [] && t[0].sector < s {
      RankUnique(t[1..], s, k - 1);
    }
  }

  lemma RankWithout(t: seq<Rq>, i: nat, s: int)
    requires Ascending(t) && i < |t|
    ensures Rank(t[..i] + t[i+1..], s) == Rank(t, s) - if i < Rank(t, s) then 1 else 0
  {
    var r := Rank(t, s);
    RankSplits(t, s);
    RankUnique(t[..i] + t[i+1..], s, if i < r then r - 1 else r);
  }

  lemma RankInsert(t: seq<Rq>, rq: Rq, s: int)
    requires Ascending(t)
    ensures Rank(Insert(t, rq), s) == Rank(t, s) + if rq.sector < s then 1 else 0
  {
    var k, r := Rank(t, rq.sector), Rank(t, s);
    var t' := Insert(t, rq);
    RankSplits(t, s);
    RankSplits(t, rq.sector);
    var r' := r + if rq.sector < s then 1 else 0;
    forall i | 0 <= i < |t'| ensures i < r' <==> t'[i].sector < s {
      assert i < k ==> t'[i] == t[i];
      assert i > k ==> t'[i] == t[i-1];
    }
    RankUnique(t', s, r');
  }

  // ---------------------------------------------------------------------------
  // Every operation keeps the cache right
  // ---------------------------------------------------------------------------

  /** The neighbours of the head after the i-th request is gone. */
  lemma WithoutNeighbours(t: seq<Rq>, i: nat, last: int)
    requires Ascending(t) && i < |t|
    ensures var r, t' := Rank(t, last), t[..i] + t[i+1..];
            && AtRank(t', Rank(t', last)) == AtRank(t, if r == i then i + 1 else r)
            && AtRank(t', Rank(t', last) - 1) == AtRank(t, if r - 1 == i then i - 1 else r - 1)
  {
    RankWithout(t, i, last);
    hide Rank, Ascending;
  }

  lemma CachedIs(t: seq<Rq>, i: nat, r: int)
    requires Ascending(t) && i < |t|
    ensures AtRank(t, r) == Some(t[i]) <==> r == i
  {
  }

  lemma NeighboursAt(t: seq<Rq>, rq: Rq)
    requires rq in t
    ensures var i := IndexOf(t, rq);
            && Successor(t, rq) == AtRank(t, i + 1)
            && Predecessor(t, rq) == AtRank(t, i - 1)
            && Erase(t, rq) == t[..i] + t[i+1..]
  {
  }

  lemma DelCache(d: Data, rq: Rq)
    requires Ascending(d.sort) && CacheOk(d.sort, d.last, d.next, d.prev) && rq in d.sort
    ensures CacheOk(Erase(d.sort, rq), d.last, Del(d, rq).next, Del(d, rq).prev)
  {
    hide Ascending, Rank, AtRank, Successor, Predecessor, Erase, IndexOf;
    var t, i := d.sort, IndexOf(d.sort, rq);
    var r: int := Rank(d.sort, d.last);
    NeighboursAt(t, rq);
    WithoutNeighbours(t, i, d.last);
    CachedIs(t, i, r);
    CachedIs(t, i, r - 1);
  }

  lemma MoveCache(d: Data, rq: Rq)
    requires Ascending(d.sort) && rq in d.sort
    ensures var m := Move(d, rq); m.sort == Erase(d.sort, rq) && CacheOk(m.sort, m.last, m.next, m.prev)
  {
    var t, i := d.sort, IndexOf(d.sort, rq);
    var t' := t[..i] + t[i+1..];
    assert Erase(t, rq) == t';
    RankUnique(t', rq.sector, i);
    NotItself(t, rq);
  }

  lemma NotItself(t: seq<Rq>, rq: Rq)
    requires Ascending(t)
    ensures Successor(t, rq) != Some(rq) && Predecessor(t, rq) != Some(rq)
  {
  }

  /** The neighbours of the head after rq is inserted at place k. */
  lemma InsertNeighbours(t: seq<Rq>, rq: Rq, last: int)
    requires Ascending(t)
    ensures var k, r, t' := Rank(t, rq.sector), Rank(t, last), Insert(t, rq);
            && (rq.sector >= last ==> k >= r && AtRank(t', Rank(t', last)) == (if k == r then Some(rq) else AtRank(t, r))
                                      && AtRank(t', Rank(t', last) - 1) == AtRank(t, r - 1))
            && (rq.sector < last ==> k <= r && AtRank(t', Rank(t', last)) == AtRank(t, r)
                                     && AtRank(t', Rank(t', last) - 1) == (if k == r then Some(rq) else AtRank(t, r - 1)))
  {
    RankInsert(t, rq, last);
    RankSplits(t, rq.sector);
    RankSplits(t, last);
    var k, r := Rank(t, rq.sector), Rank(t, last);
    assert rq.sector >= last ==> k >= r;
    assert rq.sector < last ==> k <= r;
    hide Rank, Ascending;
  }

  lemma PlaceTells(t: seq<Rq>, rq: Rq, last: int)
    requires Ascending(t) && Alias(t, rq.sector).None?
    ensures var k, r := Rank(t, rq.sector), Rank(t, last);
            && (rq.sector >= last ==> (k == r <==> AtRank(t, r).None? || AtRank(t, r).value.sector > rq.sector))
            && (rq.sector < last ==> (k == r <==> AtRank(t, r - 1).None? || AtRank(t, r - 1).value.sector < rq.sector))
  {
    AliasFound(t, rq.sector);
    RankSplits(t, rq.sector);
    RankSplits(t, last);
    var k, r := Rank(t, rq.sector), Rank(t, last);
    if r < |t| { assert t[r] in t; }
    if 0 < r { assert t[r-1] in t; }
  }

  lemma LinkCache(d: Data, rq: Rq)
    requires Ascending(d.sort) && CacheOk(d.sort, d.last, d.next, d.prev) && Alias(d.sort, rq.sector).None?
    ensures CacheOk(Link(d, rq).sort, d.last, Link(d, rq).next, Link(d, rq).prev)
  {
    hide Ascending, Rank, Alias, Insert, AtRank;
    InsertNeighbours(d.sort, rq, d.last);
    PlaceTells(d.sort, rq, d.last);
  }

  lemma ErasedFrom(f: seq<Rq>, x: Rq)
    ensures forall r | r in Erase(f, x) :: r in f
  {
  }

  // ---------------------------------------------------------------------------
  // The invariant
  // ---------------------------------------------------------------------------

  lemma DelSorted(d: Data, rq: Rq)
    requires Sorted(d) && rq in d.sort
    ensures Sorted(Del(d, rq)) && Del(d, rq).sort == Erase(d.sort, rq)
  {
    hide Ascending, CacheOk, Erase;
    DelCache(d, rq);
    EraseKeeps(d.sort, rq);
  }

  lemma MoveSorted(d: Data, rq: Rq)
    requires Sorted(d) && rq in d.sort
    ensures Sorted(Move(d, rq)) && Move(d, rq).sort == Erase(d.sort, rq)
  {
    hide Ascending, CacheOk, Erase, Move;
    MoveCache(d, rq);
    EraseKeeps(d.sort, rq);
  }

  lemma LinkSorted(d: Data, rq: Rq)
    requires Sorted(d) && Alias(d.sort, rq.sector).None?
    ensures Sorted(Link(d, rq)) && Link(d, rq).sort == Insert(d.sort, rq)
  {
    hide Ascending, CacheOk, Insert;
    LinkCache(d, rq);
    InsertKeeps(d.sort, rq);
  }

  lemma AliasGone(t: seq<Rq>, a: Rq)
    requires Ascending(t) && a in t
    ensures Alias(Erase(t, a), a.sector).None?
  {
    hide Erase;
    EraseKeeps(t, a);
    EraseMembers(t, a);
    AliasFound(Erase(t, a), a.sector);
    OneAtSector(t, a);
  }

  lemma OneAtSector(t: seq<Rq>, a: Rq)
    requires Ascending(t) && a in t
    ensures forall r | r in t && r.sector == a.sector :: r == a
  {
  }

  /** After an alias is moved the insertion succeeds: the third BUG_ON cannot fire. */
  lemma AddSortedKeeps(d: Data, rq: Rq)
    requires Sorted(d)
    ensures var alias := Alias(d.sort, rq.sector);
            var t := if alias.Some? then Erase(d.sort, alias.value) else d.sort;
            Alias(t, rq.sector).None? && Sorted(AddSorted(d, rq)) && AddSorted(d, rq).sort == Insert(t, rq)
  {
    hide Ascending, CacheOk, Erase, Insert, Move, Link, Alias;
    var alias := Alias(d.sort, rq.sector);
    if alias.Some? {
      MoveSorted(d, alias.value);
      AliasGone(d.sort, alias.value);
      LinkSorted(Move(d, alias.value), rq);
    } else {
      LinkSorted(d, rq);
    }
  }

  lemma Lists(d: Data, rq: Rq)
    ensures Del(d, rq).sync == d.sync && Del(d, rq).async == d.async && Del(d, rq).nrSorted == d.nrSorted
    ensures Move(d, rq).sync == Erase(d.sync, rq) && Move(d, rq).async == Erase(d.async, rq)
    ensures Move(d, rq).nrSorted == d.nrSorted - 1
    ensures Link(d, rq).sync == d.sync && Link(d, rq).async == d.async && Link(d, rq).nrSorted == d.nrSorted
  {
  }

  lemma ErasedOnce(f: seq<Rq>, x: Rq)
    requires NoDup(f)
    ensures NoDup(Erase(f, x)) && x !in Erase(f, x) && forall r | r in Erase(f, x) :: r in f
  {
    if x in f {
      var i := IndexOf(f, x);
      var g := f[..i] + f[i+1..];
      assert Erase(f, x) == g;
      forall k | 0 <= k < |g| ensures g[k] != x && g[k] in f {
        assert g[k] == f[if k < i then k else k + 1];
      }
      forall a, b | 0 <= a < b < |g| ensures g[a] != g[b] {
        var a', b' := if a < i then a else a + 1, if b < i then b else b + 1;
        assert g[a] == f[a'] && g[b] == f[b'];
      }
    }
  }

  ghost predicate FifosOk(d: Data) {
    NoDup(d.sync) && NoDup(d.async) && forall r | r in d.sync || r in d.async :: r in d.sort
  }

  /** The cache is right, the fifos hold requests of the tree, and nr_sorted counts them. */
  ghost predicate Valid(d: Data) {
    Sorted(d) && FifosOk(d) && d.nrSorted == |d.sort|
  }

  lemma MoveKeeps(d: Data, rq: Rq)
    requires Valid(d) && rq in d.sort
    ensures Valid(Move(d, rq)) && multiset(Move(d, rq).sort) == multiset(d.sort) - multiset{rq}
  {
    hide Ascending, CacheOk, Erase, Move, NoDup;
    MoveSorted(d, rq);
    Lists(d, rq);
    ErasedOnce(d.sync, rq);
    ErasedOnce(d.async, rq);
    EraseMembers(d.sort, rq);
    EraseHas(d.sort, rq);
  }

  lemma SubstRank(t: seq<Rq>, x: Rq, y: Rq, s: int)
    requires Ascending(t) && x.sector == y.sector
    ensures Rank(Subst(t, x, y), s) == Rank(t, s)
    ensures forall r: int :: AtRank(Subst(t, x, y), r) == Renamed(AtRank(t, r), x, y)
  {
    RankSplits(t, s);
    RankUnique(Subst(t, x, y), s, Rank(t, s));
  }

  lemma SubstSorted(d: Data, x: Rq, y: Rq)
    requires Sorted(d) && x.sector == y.sector
    ensures Sorted(d.(sort := Subst(d.sort, x, y), next := Renamed(d.next, x, y), prev := Renamed(d.prev, x, y)))
  {
    hide Ascending, Rank, AtRank;
    SubstRank(d.sort, x, y, d.last);
    SubstAscending(d.sort, x, y);
  }

  lemma TakeOverKeeps(d: Data, rq: Rq, next: Rq)
    requires Valid(d) && rq in d.sort && next in d.sort && rq != next
    ensures Valid(TakeOver(d, rq, next)) && next in TakeOver(d, rq, next).sort
    ensures TakeOver(d, rq, next).nrSorted == d.nrSorted
  {
    hide Sorted, NoDup, Erase, Subst;
    if OnFifo(d, rq) && OnFifo(d, next) && next.expires < rq.expires {
      var rq' := rq.(expires := next.expires);
      SubstSorted(d, rq, rq');
      SortedElse(d.(sort := Subst(d.sort, rq, rq'), next := Renamed(d.next, rq, rq'), prev := Renamed(d.prev, rq, rq')),
                 TakeOver(d, rq, next));
      SubstHas(d.sort, rq, rq');
      NewToList(d, rq, rq');
      ErasedOnce(d.sync, rq);
      ErasedOnce(d.async, rq);
      SubstNoDup(Erase(d.sync, rq), next, rq');
      SubstNoDup(Erase(d.async, rq), next, rq');
      SubstLength(d.sort, rq, rq');
    }
  }

  lemma SortedElse(d: Data, d': Data)
    requires Sorted(d) && d'.sort == d.sort && d'.last == d.last && d'.next == d.next && d'.prev == d.prev
    ensures Sorted(d')
  {
  }

  lemma SubstLength(f: seq<Rq>, x: Rq, y: Rq)
    ensures |Subst(f, x, y)| == |f|
  {
  }

  lemma NewToList(d: Data, rq: Rq, rq': Rq)
    requires Sorted(d) && rq in d.sort && rq'.sector == rq.sector && rq' != rq
    ensures rq' !in d.sort
  {
    hide CacheOk;
    OneAtSector(d.sort, rq);
  }

  lemma RemovedKeeps(d: Data, next: Rq)
    requires Valid(d) && next in d.sort
    ensures Valid(Remove(d, next).(nrSorted := d.nrSorted - 1))
  {
    hide Ascending, CacheOk, Erase, Del, NoDup;
    var d1 := d.(sync := Erase(d.sync, next), async := Erase(d.async, next));
    DelSorted(d1, next);
    Lists(d1, next);
    ErasedOnce(d.sync, next);
    ErasedOnce(d.async, next);
    EraseMembers(d.sort, next);
    EraseHas(d.sort, next);
  }

  lemma MergedKeeps(d: Data, rq: Rq, next: Rq)
    requires Valid(d) && rq in d.sort && next in d.sort && rq != next
    ensures Valid(MergedRequests(d, rq, next))
  {
    hide Valid, TakeOver, Remove;
    TakeOverKeeps(d, rq, next);
    RemovedKeeps(TakeOver(d, rq, next), next);
  }

  lemma SubstNoDup(f: seq<Rq>, x: Rq, y: Rq)
    requires NoDup(f) && y !in f
    ensures NoDup(Subst(f, x, y))
    ensures forall r | r in Subst(f, x, y) :: (r in f && r != x) || (r == y && x in f)
  {
    var g := Subst(f, x, y);
    forall i | 0 <= i < |g| ensures (g[i] in f && g[i] != x) || (g[i] == y && x in f) {
      assert f[i] in f;
    }
    forall i, j | 0 <= i < j < |g| ensures g[i] != g[j] {
      assert f[i] in f && f[j] in f;
    }
  }

  lemma AppendNoDup(f: seq<Rq>, y: Rq)
    requires NoDup(f) && y !in f
    ensures NoDup(f + [y])
  {
    forall i, j | 0 <= i < j < |f + [y]| ensures (f + [y])[i] != (f + [y])[j] {
      assert f[i] in f;
    }
  }

  /** The lists and the count after vr_add_rq_rb. */
  lemma AddSortedLists(d: Data, rq: Rq)
    ensures var alias, d' := Alias(d.sort, rq.sector), AddSorted(d, rq);
            && d'.sync == (if alias.Some? then Erase(d.sync, alias.value) else d.sync)
            && d'.async == (if alias.Some? then Erase(d.async, alias.value) else d.async)
            && d'.nrSorted == d.nrSorted - if alias.Some? then 1 else 0
  {
    hide Move, Link, Erase, Alias;
    var alias := Alias(d.sort, rq.sector);
    if alias.Some? {
      Lists(d, alias.value);
      Lists(Move(d, alias.value), rq);
    } else {
      Lists(d, rq);
    }
  }

  /** A request joins the tree; one at the same sector leaves the scheduler. */
  lemma AddSortedValid(d: Data, rq: Rq)
    requires Sorted(d) && rq !in d.sort && NoDup(d.sync) && NoDup(d.async)
    requires forall r | r in d.sync || r in d.async :: r in d.sort || r == rq
    requires d.nrSorted == |d.sort| + 1
    ensures Valid(AddSorted(d, rq))
    ensures forall r :: r in AddSorted(d, rq).sort <==> (r in d.sort && r.sector != rq.sector) || r == rq
  {
    hide Ascending, CacheOk, Erase, Insert, AddSorted, NoDup;
    AddSortedKeeps(d, rq);
    AddSortedLists(d, rq);
    AliasFound(d.sort, rq.sector);
    var alias := Alias(d.sort, rq.sector);
    if alias.Some? {
      var a := alias.value;
      EraseMembers(d.sort, a);
      EraseHas(d.sort, a);
      OneAtSector(d.sort, a);
      InsertHas(Erase(d.sort, a), rq);
      ErasedOnce(d.sync, a);
      ErasedOnce(d.async, a);
      assert |multiset(Insert(Erase(d.sort, a), rq))| == |d.sort|;
    } else {
      InsertHas(d.sort, rq);
      assert |multiset(Insert(d.sort, rq))| == |d.sort| + 1;
    }
  }

  lemma AddKeeps(c: Config, d: Data, now: int, rq: Rq)
    requires Valid(d) && forall r | r in d.sort :: r.id != rq.id
    ensures Valid(AddRequest(c, d, now, rq))
  {
    hide Ascending, CacheOk, AddSorted, NoDup;
    var expire := if rq.sync then c.syncExpire else c.asyncExpire;
    var rq' := if expire != 0 then rq.(expires := now + expire) else rq;
    var d0 := d.(nrSorted := d.nrSorted + 1);
    AddSortedValid(d0, rq');
    AddSortedLists(d0, rq');
    var d1 := AddSorted(d0, rq');
    AliasLists(d0, rq');
    if expire != 0 {
      if rq.sync { AppendNoDup(d1.sync, rq'); } else { AppendNoDup(d1.async, rq'); }
    }
  }

  lemma AliasLists(d: Data, rq: Rq)
    requires FifosOk(d) && rq !in d.sort
    ensures rq !in AddSorted(d, rq).sync && rq !in AddSorted(d, rq).async
  {
    hide AddSorted, Erase, NoDup;
    AddSortedLists(d, rq);
    var alias := Alias(d.sort, rq.sector);
    if alias.Some? {
      ErasedOnce(d.sync, alias.value);
      ErasedOnce(d.async, alias.value);
    }
  }

  lemma FrontMergedKeeps(d: Data, rq: Rq, sector: int)
    requires Valid(d) && rq in d.sort && rq.(sector := sector) !in d.sort
    ensures Valid(FrontMerged(d, rq, sector))
  {
    hide Ascending, CacheOk, AddSorted, NoDup, Del, Erase;
    var rq' := rq.(sector := sector);
    DelSorted(d, rq);
    Lists(d, rq);
    EraseMembers(d.sort, rq);
    EraseHas(d.sort, rq);
    SubstNoDup(d.sync, rq, rq');
    SubstNoDup(d.async, rq, rq');
    var d1 := Del(d, rq);
    AddSortedValid(d1.(sync := Subst(d1.sync, rq, rq'), async := Subst(d1.async, rq, rq')), rq');
  }

  // ---------------------------------------------------------------------------
  // Dispatching and draining
  // ---------------------------------------------------------------------------

  lemma ExpiredIsSorted(d: Data, now: int)
    requires Valid(d)
    ensures CheckFifo(d, now).Some? ==> CheckFifo(d, now).value in d.sort
  {
    hide Sorted, NoDup;
    assert d.sync != [] ==> d.sync[0] in d.sync;
    assert d.async != [] ==> d.async[0] in d.async;
  }

  /** The cache is empty only when the tree is. */
  lemma ChooseFinds(c: Config, d: Data)
    requires Sorted(d)
    ensures Choose(c, d).None? <==> d.sort == []
    ensures Choose(c, d).Some? ==> Choose(c, d).value in d.sort
  {
    hide Sorted;
    CacheMeans(d);
    if d.sort != [] {
      assert d.sort[0] in d.sort;
    }
  }

  lemma UnbatchedKeeps(d: Data)
    requires Valid(d)
    ensures Valid(d.(nbatched := 0))
  {
    hide Ascending, CacheOk, NoDup;
  }

  /** vr_dispatch_requests returns 0 exactly when nothing is pending. */
  lemma DispatchKeeps(c: Config, d: Data, now: int)
    requires Valid(d)
    ensures Valid(DispatchOne(c, d, now).0)
    ensures DispatchOne(c, d, now).1 <==> d.sort != []
    ensures d.sort != [] ==> |DispatchOne(c, d, now).0.sort| == |d.sort| - 1
    ensures d.sort == [] ==> DispatchOne(c, d, now).0.sort == []
  {
    hide Sorted, FifosOk, Move, CheckFifo, Choose;
    UnbatchedKeeps(d);
    var d1 := if d.nbatched > c.fifoBatch then d.(nbatched := 0) else d;
    ExpiredIsSorted(d1, now);
    ChooseFinds(c, d1);
    var expired := if d.nbatched > c.fifoBatch then CheckFifo(d1, now) else None;
    var rq := if expired.Some? then expired else Choose(c, d1);
    if rq.Some? {
      MoveKeeps(d1, rq.value);
      assert |multiset(Move(d1, rq.value).sort)| == |d1.sort| - 1;
    }
  }

  /** What the scheduler holds and has dispatched, together. */
  ghost function Requests(d: Data): multiset<Rq> {
    multiset(d.sort) + multiset(d.dispatch)
  }

  lemma MoveConserves(d: Data, rq: Rq)
    requires Valid(d) && rq in d.sort
    ensures Requests(Move(d, rq)) == Requests(d) && d.dispatch <= Move(d, rq).dispatch
  {
    hide Valid;
    MoveKeeps(d, rq);
    assert Move(d, rq).dispatch == d.dispatch + [rq];
  }

  /** A dispatch moves a request and loses none. */
  lemma DispatchConserves(c: Config, d: Data, now: int)
    requires Valid(d)
    ensures Requests(DispatchOne(c, d, now).0) == Requests(d)
    ensures d.dispatch <= DispatchOne(c, d, now).0.dispatch
  {
    hide Valid, Move, CheckFifo, Choose;
    UnbatchedKeeps(d);
    var d1 := if d.nbatched > c.fifoBatch then d.(nbatched := 0) else d;
    ExpiredIsSorted(d1, now);
    ValidSorted(d1);
    ChooseFinds(c, d1);
    var expired := if d.nbatched > c.fifoBatch then CheckFifo(d1, now) else None;
    var rq := if expired.Some? then expired else Choose(c, d1);
    if rq.Some? {
      MoveConserves(d1, rq.value);
    }
  }

  lemma ValidSorted(d: Data)
    requires Valid(d)
    ensures Sorted(d)
  {
  }

  lemma Counted(d: Data)
    requires Valid(d)
    ensures d.nrSorted == |d.sort|
  {
  }

  // ---------------------------------------------------------------------------
  // Runs
  // ---------------------------------------------------------------------------

  datatype Action =
    | Add(now: int, rq: Rq)
    | Front(rq: Rq, sector: int)
    | Merge(rq: Rq, next: Rq)
    | Call(now: int)

  predicate Enabled(d: Data, a: Action) {
    match a
    case Add(_, rq) => forall r | r in d.sort :: r.id != rq.id
    case Front(rq, sector) => rq in d.sort && rq.(sector := sector) !in d.sort
    case Merge(rq, next) => rq in d.sort && next in d.sort && rq != next
    case Call(_) => true
  }

  function Apply(c: Config, d: Data, a: Action): Data {
    match a
    case Add(now, rq) => AddRequest(c, d, now, rq)
    case Front(rq, sector) => FrontMerged(d, rq, sector)
    case Merge(rq, next) => MergedRequests(d, rq, next)
    case Call(now) => DispatchOne(c, d, now).0
  }

  lemma StepKeeps(c: Config, d: Data, a: Action)
    requires Valid(d) && Enabled(d, a)
    ensures Valid(Apply(c, d, a))
  {
    hide Valid, AddRequest, FrontMerged, MergedRequests, DispatchOne;
    match a
    case Add(now, rq) => AddKeeps(c, d, now, rq);
    case Front(rq, sector) => FrontMergedKeeps(d, rq, sector);
    case Merge(rq, next) => MergedKeeps(d, rq, next);
    case Call(now) => DispatchKeeps(c, d, now);
  }

  ghost predicate IsRun(c: Config, ds: seq<Data>, acts: seq<Action>) {
    && |ds| == |acts| + 1
    && ds[0] == Init()
    && forall i | 0 <= i < |acts| :: Enabled(ds[i], acts[i]) && ds[i + 1] == Apply(c, ds[i], acts[i])
  }

  lemma {:induction false} RunKeeps(c: Config, ds: seq<Data>, acts: seq<Action>, i: nat)
    requires IsRun(c, ds, acts) && i <= |acts|
    ensures Valid(ds[i])
  {
    hide Valid, Apply, Enabled;
    if i == 0 {
      InitKeeps();
    } else {
      RunKeeps(c, ds, acts, i - 1);
      StepKeeps(c, ds[i - 1], acts[i - 1]);
    }
  }

  lemma InitKeeps()
    ensures Valid(Init())
  {
  }

  /** In every state of every run next_rq is the smallest request at or above last_sector and
      prev_rq the largest below it, each null only when there is none; so the two are distinct and
      in order. */
  lemma CacheAgrees(c: Config, ds: seq<Data>, acts: seq<Action>, i: nat)
    requires IsRun(c, ds, acts) && i <= |acts|
    ensures var d := ds[i];
            && !Bug(d)
            && (d.next.Some? ==> d.next.value in d.sort && d.last <= d.next.value.sector)
            && (d.prev.Some? ==> d.prev.value in d.sort && d.prev.value.sector < d.last)
            && (forall r | r in d.sort :: if r.sector >= d.last then d.next.Some? && d.next.value.sector <= r.sector
                                          else d.prev.Some? && r.sector <= d.prev.value.sector)
  {
    hide Sorted, IsRun;
    RunLength(c, ds, acts);
    RunKeeps(c, ds, acts, i);
    NoBug(ds[i]);
    CacheMeans(ds[i]);
  }

  lemma RunLength(c: Config, ds: seq<Data>, acts: seq<Action>)
    requires IsRun(c, ds, acts)
    ensures |ds| == |acts| + 1
  {
  }
}
