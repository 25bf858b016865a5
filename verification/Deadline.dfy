/** The deadline I/O scheduler.  last_sector is written and never read, and is left out. */
module Deadline {
  import opened Common
  import opened RequestTree

  /** One data direction: sort_list, fifo_list and next_rq. */
  datatype Lane = Lane(sort: seq<Rq>, fifo: seq<Rq>, next: Option<Rq>)

  /** Settings: fifo_expire, fifo_batch and writes_starved. */
  datatype Config = Config(readExpire: nat, writeExpire: nat, fifoBatch: nat, writesStarved: nat)

  datatype Data = Data(read: Lane, write: Lane, batching: nat, starved: nat, now: int, dispatch: seq<Rq>)

  function LaneOf(d: Data, write: bool): Lane {
    if write then d.write else d.read
  }

  function SetLane(d: Data, write: bool, l: Lane): Data {
    if write then d.(write := l) else d.(read := l)
  }

  // ---------------------------------------------------------------------------
  // Operations
  // ---------------------------------------------------------------------------

  /** deadline_remove_request */
  function Remove(l: Lane, rq: Rq): Lane {
    Lane(Erase(l.sort, rq), Erase(l.fifo, rq), if l.next == Some(rq) then Successor(l.sort, rq) else l.next)
  }

  /** deadline_move_request: one direction keeps a next request, the other loses it. */
  function MoveRequest(d: Data, rq: Rq): Data {
    var l := LaneOf(d, rq.write);
    var d1 := d.(read := d.read.(next := None), write := d.write.(next := None), dispatch := d.dispatch + [rq]);
    SetLane(d1, rq.write, Remove(l.(next := Successor(l.sort, rq)), rq))
  }

  /** deadline_add_rq_rb: a request at the same sector is dispatched first. */
  function AddSorted(d: Data, rq: Rq): Data {
    var alias := Alias(LaneOf(d, rq.write).sort, rq.sector);
    var d1 := if alias.Some? then MoveRequest(d, alias.value) else d;
    var l := LaneOf(d1, rq.write);
    SetLane(d1, rq.write, l.(sort := Insert(l.sort, rq)))
  }

  function Timed(c: Config, d: Data, rq: Rq): Rq {
    rq.(expires := d.now + if rq.write then c.writeExpire else c.readExpire)
  }

  /** deadline_add_request */
  function AddRequest(c: Config, d: Data, rq: Rq): Data {
    var rq' := Timed(c, d, rq);
    var d1 := AddSorted(d, rq');
    var l := LaneOf(d1, rq.write);
    SetLane(d1, rq.write, l.(fifo := l.fifo + [rq']))
  }

  /** deadline_merged_request after a front merge */
  function FrontMerged(d: Data, rq: Rq, sector: int): Data {
    var rq' := rq.(sector := sector);
    var l := LaneOf(d, rq.write);
    var l1 := Lane(Erase(l.sort, rq), Subst(l.fifo, rq, rq'), if l.next == Some(rq) then Some(rq') else l.next);
    AddSorted(SetLane(d, rq.write, l1), rq')
  }

  /** The lane after rq absorbed next. */
  function MergedLane(l: Lane, rq: Rq, next: Rq): Lane {
    var older := next.expires < rq.expires;
    var rq' := if older then rq.(expires := next.expires) else rq;
    var next' := if l.next == Some(next) then Successor(l.sort, next) else l.next;
    var next'' := if next' == Some(rq) then Some(rq') else next';
    Lane(Subst(Erase(l.sort, next), rq, rq'),
         if older then Subst(Erase(l.fifo, rq), next, rq') else Erase(l.fifo, next),
         next'')
  }

  /** deadline_merged_requests: the request that stays takes over the place and the expiry of an
      older one. */
  function MergedRequests(d: Data, rq: Rq, next: Rq): Data {
    SetLane(d, rq.write, MergedLane(LaneOf(d, rq.write), rq, next))
  }

  /** deadline_check_fifo */
  predicate Expired(l: Lane, now: int) {
    l.fifo != [] && l.fifo[0].expires < now
  }

  /** The first request of a batch in one direction. */
  function FindRequest(l: Lane, now: int): Option<Rq> {
    if Expired(l, now) || l.next.None? then (if l.fifo == [] then None else Some(l.fifo[0])) else l.next
  }

  function StartBatch(d: Data, write: bool): (Data, bool) {
    var rq := FindRequest(LaneOf(d, write), d.now);
    if rq.None? then (d, false) else (MoveRequest(d.(batching := 1), rq.value), true)
  }

  /** deadline_dispatch_requests: the new state, and whether a request was dispatched. */
  function DispatchOne(c: Config, d: Data): (Data, bool) {
    var hasReads, hasWrites := d.read.fifo != [], d.write.fifo != [];
    var rq := if d.write.next.Some? then d.write.next else d.read.next;
    if rq.Some? && d.batching < c.fifoBatch then
      (MoveRequest(d.(batching := d.batching + 1), rq.value), true)
    else if hasReads then
      if hasWrites then
        if d.starved >= c.writesStarved then StartBatch(d.(starved := 0), true)
        else StartBatch(d.(starved := d.starved + 1), false)
      else StartBatch(d, false)
    else if hasWrites then StartBatch(d.(starved := 0), true)
    else (d, false)
  }

  // ---------------------------------------------------------------------------
  // The invariant
  // ---------------------------------------------------------------------------

  ghost predicate UniqueIds(s: seq<Rq>) {
    forall i, j | 0 <= i < j < |s| :: s[i].id != s[j].id
  }

  ghost predicate ByExpiry(s: seq<Rq>) {
    forall i, j | 0 <= i < j < |s| :: s[i].expires <= s[j].expires
  }

  /** The two lists of a direction hold the same requests; the fifo is in order of expiry. */
  ghost predicate LaneOk(l: Lane, write: bool, latest: int) {
    && Ascending(l.sort)
    && multiset(l.fifo) == multiset(l.sort)
    && (l.next.Some? ==> l.next.value in l.sort)
    && UniqueIds(l.fifo)
    && ByExpiry(l.fifo)
    && (forall r | r in l.fifo :: r.write == write && r.expires <= latest)
  }

  /** At most one direction has a next request. */
  ghost predicate Inv(c: Config, d: Data) {
    && LaneOk(d.read, false, d.now + c.readExpire)
    && LaneOk(d.write, true, d.now + c.writeExpire)
    && (d.read.next.None? || d.write.next.None?)
    && d.starved <= c.writesStarved
  }

  lemma SameMembers(l: Lane, write: bool, latest: int)
    requires LaneOk(l, write, latest)
    ensures forall r :: r in l.fifo <==> r in l.sort
    ensures l.fifo == [] <==> l.sort == []
  {
    hide Ascending, UniqueIds, ByExpiry;
    forall r ensures r in l.fifo <==> r in l.sort {
      assert r in multiset(l.fifo) <==> r in multiset(l.sort);
    }
    assert |multiset(l.fifo)| == |l.fifo| && |multiset(l.sort)| == |l.sort|;
  }

  lemma WithoutUnique(s: seq<Rq>, i: nat)
    requires i < |s|
    ensures UniqueIds(s) ==> UniqueIds(s[..i] + s[i+1..])
    ensures ByExpiry(s) ==> ByExpiry(s[..i] + s[i+1..])
  {
    var s' := s[..i] + s[i+1..];
    forall a, b | 0 <= a < b < |s'|
      ensures exists a', b' :: 0 <= a' < b' < |s| && s'[a] == s[a'] && s'[b] == s[b']
    {
      var a', b' := if a < i then a else a + 1, if b < i then b else b + 1;
      assert s'[a] == s[a'] && s'[b] == s[b'];
    }
  }

  lemma ErasedFifo(s: seq<Rq>, x: Rq)
    requires UniqueIds(s) && ByExpiry(s)
    ensures UniqueIds(Erase(s, x)) && ByExpiry(Erase(s, x))
    ensures forall r | r in Erase(s, x) :: r in s
  {
    if x in s {
      WithoutUnique(s, IndexOf(s, x));
    }
  }

  /** deadline_remove_request keeps a direction in order. */
  lemma RemoveKeeps(l: Lane, rq: Rq, write: bool, latest: int)
    requires LaneOk(l, write, latest) && rq in l.sort
    ensures LaneOk(Remove(l, rq), write, latest)
    ensures forall r :: r in Remove(l, rq).fifo <==> r in l.fifo && r != rq
  {
    hide Ascending, UniqueIds, ByExpiry, Erase;
    SameMembers(l, write, latest);
    EraseKeeps(l.sort, rq);
    EraseMembers(l.sort, rq);
    EraseHas(l.sort, rq);
    EraseHas(l.fifo, rq);
    ErasedFifo(l.fifo, rq);
    SuccessorIsOther(l.sort, rq);
    var l' := Remove(l, rq);
    forall r ensures r in l'.fifo <==> r in l.fifo && r != rq {
      assert r in multiset(l'.fifo) <==> r in multiset(l'.sort);
    }
  }

  lemma SuccessorIsOther(t: seq<Rq>, rq: Rq)
    requires Ascending(t)
    ensures Successor(t, rq).Some? ==> Successor(t, rq).value in t && Successor(t, rq).value != rq
  {
  }

  lemma NextCleared(l: Lane, write: bool, latest: int)
    requires LaneOk(l, write, latest)
    ensures LaneOk(l.(next := None), write, latest)
  {
  }

  lemma NextSet(l: Lane, rq: Rq, write: bool, latest: int)
    requires LaneOk(l, write, latest)
    ensures LaneOk(l.(next := Successor(l.sort, rq)), write, latest)
  {
    hide Ascending, UniqueIds, ByExpiry;
  }

  function Latest(c: Config, d: Data, write: bool): int {
    d.now + if write then c.writeExpire else c.readExpire
  }

  lemma LaneInv(c: Config, d: Data, write: bool)
    requires Inv(c, d)
    ensures LaneOk(LaneOf(d, write), write, Latest(c, d, write))
  {
  }

  lemma MoveKeeps(c: Config, d: Data, rq: Rq)
    requires Inv(c, d) && rq in LaneOf(d, rq.write).sort
    ensures Inv(c, MoveRequest(d, rq))
    ensures LaneOf(MoveRequest(d, rq), rq.write).fifo == Erase(LaneOf(d, rq.write).fifo, rq)
    ensures LaneOf(MoveRequest(d, rq), !rq.write).fifo == LaneOf(d, !rq.write).fifo
  {
    hide LaneOk, Erase;
    var l, w := LaneOf(d, rq.write), rq.write;
    LaneInv(c, d, w);
    LaneInv(c, d, !w);
    NextSet(l, rq, w, Latest(c, d, w));
    RemoveKeeps(l.(next := Successor(l.sort, rq)), rq, w, Latest(c, d, w));
    NextCleared(LaneOf(d, !w), !w, Latest(c, d, !w));
  }

  // ---------------------------------------------------------------------------
  // Adding and merging
  // ---------------------------------------------------------------------------

  /** A direction in which rq is on the fifo and not yet in the tree. */
  ghost predicate LooseOk(l: Lane, rq: Rq, write: bool, latest: int) {
    && Ascending(l.sort)
    && rq !in l.sort
    && multiset(l.fifo) == multiset(l.sort) + multiset{rq}
    && (l.next.Some? ==> l.next.value in l.sort || l.next.value == rq)
    && UniqueIds(l.fifo)
    && ByExpiry(l.fifo)
    && (forall r | r in l.fifo :: r.write == write && r.expires <= latest)
  }

  ghost predicate LooseInv(c: Config, d: Data, rq: Rq) {
    && LooseOk(LaneOf(d, rq.write), rq, rq.write, Latest(c, d, rq.write))
    && LaneOk(LaneOf(d, !rq.write), !rq.write, Latest(c, d, !rq.write))
    && (d.read.next.None? || d.write.next.None?)
    && d.starved <= c.writesStarved
  }

  lemma TightOk(l: Lane, rq: Rq, write: bool, latest: int)
    requires LooseOk(l, rq, write, latest) && Alias(l.sort, rq.sector).None?
    ensures LaneOk(l.(sort := Insert(l.sort, rq)), write, latest)
  {
    hide Ascending, UniqueIds, ByExpiry, Insert;
    InsertKeeps(l.sort, rq);
    InsertHas(l.sort, rq);
  }

  lemma TakeBeside(s: multiset<Rq>, a: Rq, r: Rq)
    requires a in s
    ensures s + multiset{r} - multiset{a} == s - multiset{a} + multiset{r}
  {
  }

  lemma LooseFifo(fifo: seq<Rq>, s: multiset<Rq>, a: Rq, r: Rq)
    requires multiset(fifo) == s + multiset{r} && a in s
    ensures multiset(Erase(fifo, a)) == s - multiset{a} + multiset{r}
  {
    hide Erase;
    assert a in multiset(fifo);
    EraseHas(fifo, a);
    TakeBeside(s, a, r);
  }

  lemma LooseRemove(l: Lane, rq: Rq, a: Rq, write: bool, latest: int)
    requires LooseOk(l, rq, write, latest) && a in l.sort
    ensures LooseOk(Remove(l.(next := Successor(l.sort, a)), a), rq, write, latest)
    ensures forall r | r in Remove(l.(next := Successor(l.sort, a)), a).sort :: r in l.sort && r != a
  {
    hide Ascending, UniqueIds, ByExpiry, Erase;
    EraseKeeps(l.sort, a);
    EraseMembers(l.sort, a);
    EraseHas(l.sort, a);
    ErasedFifo(l.fifo, a);
    SuccessorIsOther(l.sort, a);
    assert a in multiset(l.sort);
    LooseFifo(l.fifo, multiset(l.sort), a, rq);
  }

  lemma AliasGone(sort: seq<Rq>, sort': seq<Rq>, a: Rq)
    requires Ascending(sort) && Ascending(sort') && a in sort && forall r | r in sort' :: r in sort && r != a
    ensures Alias(sort', a.sector).None?
  {
    AliasFound(sort', a.sector);
    forall r | r in sort' ensures r.sector != a.sector {
      var i :| 0 <= i < |sort| && sort[i] == r;
      var j :| 0 <= j < |sort| && sort[j] == a;
    }
  }

  /** What adding a request does to the fifo: a request at the same sector leaves it. */
  ghost function FifoAfter(fifo: seq<Rq>, alias: Option<Rq>): seq<Rq> {
    if alias.Some? then Erase(fifo, alias.value) else fifo
  }

  lemma AddSortedKeeps(c: Config, d: Data, rq: Rq)
    requires LooseInv(c, d, rq)
    ensures Inv(c, AddSorted(d, rq))
    ensures LaneOf(AddSorted(d, rq), rq.write).fifo == FifoAfter(LaneOf(d, rq.write).fifo, Alias(LaneOf(d, rq.write).sort, rq.sector))
    ensures LaneOf(AddSorted(d, rq), !rq.write).fifo == LaneOf(d, !rq.write).fifo
  {
    hide LaneOk, LooseOk, Erase, Insert;
    var l, w := LaneOf(d, rq.write), rq.write;
    var alias := Alias(l.sort, rq.sector);
    if alias.Some? {
      AliasSameWay(l, rq, alias.value, w, Latest(c, d, w));
      LooseRemove(l, rq, alias.value, w, Latest(c, d, w));
      var l1 := Remove(l.(next := Successor(l.sort, alias.value)), alias.value);
      LooseSorted(l, rq, w, Latest(c, d, w));
      LooseSorted(l1, rq, w, Latest(c, d, w));
      AliasGone(l.sort, l1.sort, alias.value);
      TightOk(l1, rq, w, Latest(c, d, w));
      NextCleared(LaneOf(d, !w), !w, Latest(c, d, !w));
    } else {
      TightOk(l, rq, w, Latest(c, d, w));
    }
  }

  lemma LooseSorted(l: Lane, rq: Rq, write: bool, latest: int)
    requires LooseOk(l, rq, write, latest)
    ensures Ascending(l.sort)
  {
  }

  lemma AliasSameWay(l: Lane, rq: Rq, a: Rq, write: bool, latest: int)
    requires LooseOk(l, rq, write, latest) && a in l.sort
    ensures a.write == write
  {
    hide Ascending, UniqueIds, ByExpiry;
    assert a in multiset(l.sort);
    assert a in multiset(l.fifo);
  }

  /** Adding the request to the fifo first makes no difference. */
  ghost function Queued(c: Config, d: Data, rq: Rq): Data {
    var rq' := Timed(c, d, rq);
    var l := LaneOf(d, rq.write);
    SetLane(d, rq.write, l.(fifo := l.fifo + [rq']))
  }

  lemma EraseAppend(f: seq<Rq>, x: Rq, y: Rq)
    requires x in f
    ensures Erase(f + [y], x) == Erase(f, x) + [y]
  {
    var i := IndexOf(f, x);
    SameIndex(f, x, y);
    assert (f + [y])[..i] == f[..i] && (f + [y])[i+1..] == f[i+1..] + [y];
  }

  lemma {:induction false} SameIndex(f: seq<Rq>, x: Rq, y: Rq)
    requires x in f
    ensures IndexOf(f + [y], x) == IndexOf(f, x)
  {
    if f[0] != x {
      SameIndex(f[1..], x, y);
      assert (f + [y])[1..] == f[1..] + [y];
    }
  }

  lemma AddIsQueued(c: Config, d: Data, rq: Rq)
    requires Inv(c, d)
    ensures AddRequest(c, d, rq) == AddSorted(Queued(c, d, rq), Timed(c, d, rq))
  {
    hide Erase, Insert, Ascending, UniqueIds, ByExpiry;
    var l := LaneOf(d, rq.write);
    LaneInv(c, d, rq.write);
    SameMembers(l, rq.write, Latest(c, d, rq.write));
    var alias := Alias(l.sort, rq.sector);
    if alias.Some? {
      assert alias.value.write == rq.write;
      EraseAppend(l.fifo, alias.value, Timed(c, d, rq));
    }
  }

  lemma QueuedLoose(c: Config, d: Data, rq: Rq)
    requires Inv(c, d) && forall r | r in LaneOf(d, rq.write).fifo :: r.id != rq.id
    ensures LooseInv(c, Queued(c, d, rq), Timed(c, d, rq))
  {
    hide Ascending;
    var l := LaneOf(d, rq.write);
    LaneInv(c, d, rq.write);
    LaneInv(c, d, !rq.write);
    SameMembers(l, rq.write, Latest(c, d, rq.write));
    AppendedFifo(l.fifo, Timed(c, d, rq));
  }

  lemma AppendedFifo(f: seq<Rq>, y: Rq)
    requires UniqueIds(f) && ByExpiry(f) && forall r | r in f :: r.id != y.id && r.expires <= y.expires
    ensures UniqueIds(f + [y]) && ByExpiry(f + [y])
  {
  }

  lemma AddKeeps(c: Config, d: Data, rq: Rq)
    requires Inv(c, d) && forall r | r in LaneOf(d, rq.write).fifo :: r.id != rq.id
    ensures Inv(c, AddRequest(c, d, rq))
  {
    hide Inv, LooseInv, AddSorted, AddRequest;
    AddIsQueued(c, d, rq);
    QueuedLoose(c, d, rq);
    AddSortedKeeps(c, Queued(c, d, rq), Timed(c, d, rq));
  }

  /** The request that comes expires as its direction is set, and is last on its fifo; one at the
      same sector leaves it, for the dispatch queue; the other direction's fifo stays. */
  lemma AddAppends(c: Config, d: Data, rq: Rq)
    requires Inv(c, d) && forall r | r in LaneOf(d, rq.write).fifo :: r.id != rq.id
    ensures var l, d' := LaneOf(d, rq.write), AddRequest(c, d, rq);
            var alias := Alias(l.sort, rq.sector);
            && LaneOf(d', rq.write).fifo == FifoAfter(l.fifo, alias) + [rq.(expires := d.now + if rq.write then c.writeExpire else c.readExpire)]
            && LaneOf(d', !rq.write).fifo == LaneOf(d, !rq.write).fifo
            && d'.dispatch == d.dispatch + if alias.Some? then [alias.value] else []
  {
    hide Alias, Insert, Erase;
    SortedLane(c, d, rq.write);
  }

  lemma SortedLane(c: Config, d: Data, write: bool)
    requires Inv(c, d)
    ensures Ascending(LaneOf(d, write).sort) && forall r | r in LaneOf(d, write).sort :: r.write == write
  {
    hide Ascending, UniqueIds, ByExpiry;
    LaneInv(c, d, write);
    SameMembers(LaneOf(d, write), write, Latest(c, d, write));
  }

  lemma SubstFifo(f: seq<Rq>, x: Rq, y: Rq)
    requires UniqueIds(f) && x.id == y.id && x.expires == y.expires
    ensures UniqueIds(Subst(f, x, y)) && (ByExpiry(f) ==> ByExpiry(Subst(f, x, y)))
  {
  }

  /** The state of a front merge in which the request is out of the tree. */
  ghost function Unsorted(d: Data, rq: Rq, sector: int): Data {
    var rq' := rq.(sector := sector);
    var l := LaneOf(d, rq.write);
    SetLane(d, rq.write, Lane(Erase(l.sort, rq), Subst(l.fifo, rq, rq'), if l.next == Some(rq) then Some(rq') else l.next))
  }

  lemma UnsortedLoose(c: Config, d: Data, rq: Rq, sector: int)
    requires Inv(c, d) && rq in LaneOf(d, rq.write).sort
    ensures LooseInv(c, Unsorted(d, rq, sector), rq.(sector := sector))
  {
    hide LaneOk, Erase, Subst;
    var l, w := LaneOf(d, rq.write), rq.write;
    LaneInv(c, d, w);
    LaneInv(c, d, !w);
    UnsortedLane(l, rq, sector, w, Latest(c, d, w));
  }

  lemma UnsortedLane(l: Lane, rq: Rq, sector: int, write: bool, latest: int)
    requires LaneOk(l, write, latest) && rq in l.sort
    ensures var rq' := rq.(sector := sector);
            LooseOk(Lane(Erase(l.sort, rq), Subst(l.fifo, rq, rq'), if l.next == Some(rq) then Some(rq') else l.next), rq', write, latest)
  {
    hide Ascending, UniqueIds, ByExpiry, Erase, Subst;
    var rq' := rq.(sector := sector);
    SameMembers(l, write, latest);
    EraseKeeps(l.sort, rq);
    EraseMembers(l.sort, rq);
    EraseHas(l.sort, rq);
    Distinct(l.sort);
    assert rq in multiset(l.fifo);
    SubstMultiset(l.fifo, rq, rq');
    SubstFifo(l.fifo, rq, rq');
    SubstHas(l.fifo, rq, rq');
    OnlyOne(l.fifo, rq);
  }

  /** No other request on the fifo has the same id. */
  lemma OnlyOne(f: seq<Rq>, rq: Rq)
    requires UniqueIds(f) && rq in f
    ensures forall r | r in f && r.id == rq.id :: r == rq
  {
  }

  lemma FrontMergedKeeps(c: Config, d: Data, rq: Rq, sector: int)
    requires Inv(c, d) && rq in LaneOf(d, rq.write).sort
    ensures Inv(c, FrontMerged(d, rq, sector))
  {
    hide Inv, LooseInv, AddSorted;
    UnsortedLoose(c, d, rq, sector);
    AddSortedKeeps(c, Unsorted(d, rq, sector), rq.(sector := sector));
  }

  lemma MergedFifo(f: seq<Rq>, rq: Rq, next: Rq)
    requires UniqueIds(f) && ByExpiry(f) && rq in f && next in f && next.expires < rq.expires
    ensures var rq' := rq.(expires := next.expires);
            UniqueIds(Subst(Erase(f, rq), next, rq')) && ByExpiry(Subst(Erase(f, rq), next, rq'))
  {
    hide Erase;
    var g := Erase(f, rq);
    ErasedFifo(f, rq);
    OnlyOne(f, rq);
    ErasedOnce(f, rq);
    forall i | 0 <= i < |g| ensures g[i].id != rq.id {
      assert g[i] in g;
    }
  }

  lemma ErasedOnce(f: seq<Rq>, x: Rq)
    requires UniqueIds(f) && x in f
    ensures x !in Erase(f, x)
    ensures forall r | r in f && r != x :: r in Erase(f, x)
  {
    var i := IndexOf(f, x);
    forall j | 0 <= j < |f| && j != i ensures f[j] != x {
      assert j < i ==> f[j].id != f[i].id;
    }
    assert Erase(f, x) == f[..i] + f[i+1..];
    assert f == f[..i] + [x] + f[i+1..];
  }

  lemma MergedSortOk(l: Lane, rq: Rq, next: Rq, rq': Rq)
    requires Ascending(l.sort) && rq in l.sort && next in l.sort && rq != next && rq'.sector == rq.sector
    ensures Ascending(Subst(Erase(l.sort, next), rq, rq'))
    ensures multiset(Subst(Erase(l.sort, next), rq, rq')) == multiset(l.sort) - multiset{next} - multiset{rq} + multiset{rq'}
    ensures forall z :: z in Subst(Erase(l.sort, next), rq, rq') <==> (z in l.sort && z != next && z != rq) || z == rq'
  {
    hide Ascending, Erase, Subst;
    var t := Erase(l.sort, next);
    EraseKeeps(l.sort, next);
    EraseMembers(l.sort, next);
    EraseHas(l.sort, next);
    Distinct(t);
    assert rq in multiset(t);
    SubstMultiset(t, rq, rq');
    SubstAscending(t, rq, rq');
    SubstHas(t, rq, rq');
  }

  lemma MergedFifoHas(f: seq<Rq>, rq: Rq, next: Rq, rq': Rq)
    requires UniqueIds(f) && rq in f && next in f && rq != next
    ensures multiset(Subst(Erase(f, rq), next, rq')) == multiset(f) - multiset{rq} - multiset{next} + multiset{rq'}
  {
    hide Erase, Subst;
    var g := Erase(f, rq);
    EraseHas(f, rq);
    ErasedOnce(f, rq);
    IdsDistinct(f);
    assert next in multiset(g);
    SubstMultiset(g, next, rq');
  }

  lemma {:induction false} IdsDistinct(f: seq<Rq>)
    requires UniqueIds(f)
    ensures forall x :: multiset(f)[x] <= 1
  {
    if f != [] {
      var s := f[..|f| - 1];
      IdsDistinct(s);
      assert f == s + [f[|f| - 1]];
      assert f[|f| - 1] !in s;
    }
  }

  lemma SwapMinus(s: multiset<Rq>, a: Rq, b: Rq)
    ensures s - multiset{a} - multiset{b} == s - multiset{b} - multiset{a}
  {
  }

  lemma PutBack(s: multiset<Rq>, a: Rq, b: Rq)
    requires a in s && b in s && a != b
    ensures s - multiset{a} - multiset{b} + multiset{b} == s - multiset{a}
  {
  }

  ghost predicate ListsOk(l: Lane) {
    Ascending(l.sort) && multiset(l.fifo) == multiset(l.sort) && UniqueIds(l.fifo) && ByExpiry(l.fifo)
  }

  lemma MergedOlder(l: Lane, rq: Rq, next: Rq)
    requires ListsOk(l) && rq in l.sort && next in l.sort && rq != next && next.expires < rq.expires
    ensures ListsOk(MergedLane(l, rq, next))
  {
    hide Ascending, UniqueIds, ByExpiry, Erase, Subst;
    var rq' := rq.(expires := next.expires);
    assert rq in multiset(l.fifo) && next in multiset(l.fifo);
    MergedSortOk(l, rq, next, rq');
    SwapMinus(multiset(l.sort), next, rq);
    MergedFifoHas(l.fifo, rq, next, rq');
    MergedFifo(l.fifo, rq, next);
  }

  lemma MergedNewer(l: Lane, rq: Rq, next: Rq)
    requires ListsOk(l) && rq in l.sort && next in l.sort && rq != next && next.expires >= rq.expires
    ensures ListsOk(MergedLane(l, rq, next))
  {
    hide Ascending, UniqueIds, ByExpiry, Erase, Subst;
    assert rq in multiset(l.sort) && next in multiset(l.sort);
    assert next in multiset(l.fifo);
    MergedSortOk(l, rq, next, rq);
    EraseHas(l.fifo, next);
    ErasedFifo(l.fifo, next);
    PutBack(multiset(l.sort), next, rq);
  }

  lemma MergedLists(l: Lane, rq: Rq, next: Rq)
    requires ListsOk(l) && rq in l.sort && next in l.sort && rq != next
    ensures ListsOk(MergedLane(l, rq, next))
  {
    hide ListsOk, MergedLane;
    if next.expires < rq.expires {
      MergedOlder(l, rq, next);
    } else {
      MergedNewer(l, rq, next);
    }
  }

  lemma MergedLaneKeeps(l: Lane, rq: Rq, next: Rq, write: bool, latest: int)
    requires LaneOk(l, write, latest) && rq in l.sort && next in l.sort && rq != next
    ensures LaneOk(MergedLane(l, rq, next), write, latest)
  {
    hide Ascending, UniqueIds, ByExpiry, Erase, Subst;
    var older := next.expires < rq.expires;
    var rq' := if older then rq.(expires := next.expires) else rq;
    var l' := MergedLane(l, rq, next);
    SameMembers(l, write, latest);
    MergedSortOk(l, rq, next, rq');
    MergedLists(l, rq, next);
    SuccessorIsOther(l.sort, next);
    forall r | r in l'.fifo ensures r.write == write && r.expires <= latest {
      assert r in multiset(l'.fifo);
      assert r in multiset(l'.sort);
    }
  }

  /** Exactly the absorbed request leaves the fifo, and an older one hands on its expiry and its
      place. */
  lemma MergedHandsOn(c: Config, d: Data, rq: Rq, next: Rq)
    requires Inv(c, d) && rq in LaneOf(d, rq.write).sort && next in LaneOf(d, rq.write).sort && rq != next
    ensures var l, l' := LaneOf(d, rq.write), LaneOf(MergedRequests(d, rq, next), rq.write);
            var rq' := if next.expires < rq.expires then rq.(expires := next.expires) else rq;
            && (forall r :: r in l'.fifo <==> (r in l.fifo && r != rq && r != next) || r == rq')
            && (next.expires < rq.expires ==>
                  next in Erase(l.fifo, rq) && rq' in l'.fifo && IndexOf(l'.fifo, rq') == IndexOf(Erase(l.fifo, rq), next))
  {
    hide LaneOk, Erase, Subst, IndexOf, UniqueIds;
    var w := rq.write;
    LaneInv(c, d, w);
    FifoOf(LaneOf(d, w), w, Latest(c, d, w), rq);
    FifoOf(LaneOf(d, w), w, Latest(c, d, w), next);
    HandedOn(LaneOf(d, w).fifo, rq, next);
  }

  lemma FifoOf(l: Lane, write: bool, latest: int, r: Rq)
    requires LaneOk(l, write, latest) && r in l.sort
    ensures r in l.fifo && UniqueIds(l.fifo)
  {
    hide Ascending, ByExpiry;
    SameMembers(l, write, latest);
  }

  lemma HandedOn(f: seq<Rq>, rq: Rq, next: Rq)
    requires UniqueIds(f) && rq in f && next in f && rq != next
    ensures var older := next.expires < rq.expires;
            var rq' := if older then rq.(expires := next.expires) else rq;
            var f' := if older then Subst(Erase(f, rq), next, rq') else Erase(f, next);
            && (forall r :: r in f' <==> (r in f && r != rq && r != next) || r == rq')
            && (older ==> next in Erase(f, rq) && rq' in f' && IndexOf(f', rq') == IndexOf(Erase(f, rq), next))
  {
    hide Erase, Subst;
    ErasedMembers(f, rq);
    ErasedMembers(f, next);
    OnlyOne(f, rq);
    if next.expires < rq.expires {
      var rq' := rq.(expires := next.expires);
      assert rq' !in f;
      SubstHas(Erase(f, rq), next, rq');
      SubstIndex(Erase(f, rq), next, rq');
    }
  }

  lemma ErasedMembers(f: seq<Rq>, x: Rq)
    requires UniqueIds(f) && x in f
    ensures forall r :: r in Erase(f, x) <==> r in f && r != x
  {
    ErasedOnce(f, x);
    WithoutHas(f, IndexOf(f, x));
  }

  lemma WithoutHas(f: seq<Rq>, i: nat)
    requires i < |f|
    ensures forall r | r in f[..i] + f[i+1..] :: r in f
  {
  }

  lemma MergedKeeps(c: Config, d: Data, rq: Rq, next: Rq)
    requires Inv(c, d) && rq in LaneOf(d, rq.write).sort && next in LaneOf(d, rq.write).sort && rq != next
    ensures Inv(c, MergedRequests(d, rq, next))
  {
    hide LaneOk, Erase, Subst;
    var w := rq.write;
    LaneInv(c, d, w);
    LaneInv(c, d, !w);
    MergedLaneKeeps(LaneOf(d, w), rq, next, w, Latest(c, d, w));
  }

  // ---------------------------------------------------------------------------
  // Dispatching
  // ---------------------------------------------------------------------------

  lemma FindsPending(l: Lane, write: bool, latest: int, now: int)
    requires LaneOk(l, write, latest)
    ensures FindRequest(l, now).Some? <==> l.fifo != []
    ensures FindRequest(l, now).Some? ==>
              var r := FindRequest(l, now).value; r in l.sort && r in l.fifo && r.write == write
  {
    hide Ascending, UniqueIds, ByExpiry;
    SameMembers(l, write, latest);
    assert l.fifo != [] ==> l.fifo[0] in l.fifo;
  }

  lemma StartKeeps(c: Config, d: Data, write: bool)
    requires Inv(c, d)
    ensures Inv(c, StartBatch(d, write).0)
    ensures StartBatch(d, write).1 <==> LaneOf(d, write).fifo != []
  {
    hide LaneOk, MoveRequest, FindRequest;
    LaneInv(c, d, write);
    FindsPending(LaneOf(d, write), write, Latest(c, d, write), d.now);
    var rq := FindRequest(LaneOf(d, write), d.now);
    if rq.Some? {
      MoveKeeps(c, d.(batching := 1), rq.value);
    }
  }

  lemma NextPending(c: Config, d: Data)
    requires Inv(c, d)
    ensures d.write.next.Some? ==> d.write.next.value in d.write.sort && d.write.next.value.write
    ensures d.read.next.Some? ==> d.read.next.value in d.read.sort && !d.read.next.value.write
  {
    hide Ascending, UniqueIds, ByExpiry;
    SameMembers(d.read, false, d.now + c.readExpire);
    SameMembers(d.write, true, d.now + c.writeExpire);
  }

  /** deadline_dispatch_requests returns 0 only when nothing is pending. */
  lemma DispatchKeeps(c: Config, d: Data)
    requires Inv(c, d)
    ensures Inv(c, DispatchOne(c, d).0)
    ensures DispatchOne(c, d).1 <==> d.read.fifo != [] || d.write.fifo != []
  {
    hide LaneOk, MoveRequest, StartBatch;
    NextPending(c, d);
    var rq := if d.write.next.Some? then d.write.next else d.read.next;
    if rq.Some? && d.batching < c.fifoBatch {
      MoveKeeps(c, d.(batching := d.batching + 1), rq.value);
      SomePending(c, d);
    } else {
      StartKeeps(c, d.(starved := 0), true);
      StartKeeps(c, d, false);
      if d.starved < c.writesStarved {
        StartKeeps(c, d.(starved := d.starved + 1), false);
      }
    }
  }

  lemma SomePending(c: Config, d: Data)
    requires Inv(c, d) && (d.write.next.Some? || d.read.next.Some?)
    ensures d.read.fifo != [] || d.write.fifo != []
  {
    hide Ascending, UniqueIds, ByExpiry;
    SameMembers(d.read, false, d.now + c.readExpire);
    SameMembers(d.write, true, d.now + c.writeExpire);
  }
}
