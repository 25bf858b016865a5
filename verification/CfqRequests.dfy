/** The pending requests of one CFQ queue: sort_list, fifo, next_rq and the queued[] counts. */
module CfqRequests {
  import opened Common
  import opened RequestTree

  /** cfq_back_max (in KiB) and cfq_back_penalty. */
  datatype Tuning = Tuning(backMax: nat, backPenalty: nat)

  // ---------------------------------------------------------------------------
  // cfq_choose_req
  // ---------------------------------------------------------------------------

  predicate Wraps(s: int, last: int, t: Tuning) {
    s < last && s + t.backMax * 2 < last
  }

  function Distance(s: int, last: int, t: Tuning): int {
    if s >= last then s - last else (last - s) * t.backPenalty
  }

  /** a is strictly preferable to b: sync first, then metadata, then requests the head need not
      wrap around for, then the smaller (penalised) distance or, behind the head, the sector
      further back. */
  predicate Better(a: Rq, b: Rq, last: int, t: Tuning) {
    if a.sync != b.sync then a.sync
    else if a.meta != b.meta then a.meta
    else if Wraps(a.sector, last, t) != Wraps(b.sector, last, t) then Wraps(b.sector, last, t)
    else if Wraps(a.sector, last, t) then a.sector < b.sector
    else if Distance(a.sector, last, t) != Distance(b.sector, last, t)
         then Distance(a.sector, last, t) < Distance(b.sector, last, t)
    else a.sector > b.sector
  }

  /** cfq_choose_req picks a most preferable of two requests. */
  function ChooseReq(r1: Option<Rq>, r2: Option<Rq>, last: int, t: Tuning): (r: Option<Rq>)
    ensures r == r1 || r == r2
    ensures r.None? <==> r1.None? && r2.None?
    ensures r1.Some? ==> !Better(r1.value, r.value, last, t)
    ensures r2.Some? ==> !Better(r2.value, r.value, last, t)
  {
    if r1.None? || r1 == r2 then r2
    else if r2.None? then r1
    else if r1.value.sync && !r2.value.sync then r1
    else if r2.value.sync && !r1.value.sync then r2
    else if r1.value.meta && !r2.value.meta then r1
    else if r2.value.meta && !r1.value.meta then r2
    else
      var s1, s2 := r1.value.sector, r2.value.sector;
      var back := t.backMax * 2;
      var wrap1 := s1 < last && s1 + back < last;
      var wrap2 := s2 < last && s2 + back < last;
      var d1 := if s1 >= last then s1 - last else (last - s1) * t.backPenalty;
      var d2 := if s2 >= last then s2 - last else (last - s2) * t.backPenalty;
      if !wrap1 && !wrap2 then
        if d1 < d2 then r1 else if d2 < d1 then r2 else if s1 >= s2 then r1 else r2
      else if !wrap1 then r1
      else if !wrap2 then r2
      else if s1 <= s2 then r1 else r2
  }

  // ---------------------------------------------------------------------------
  // Updates
  // ---------------------------------------------------------------------------

  datatype Pending = Pending(sort: seq<Rq>, fifo: seq<Rq>, next: Option<Rq>, queuedSync: int, queuedAsync: int)

  const EMPTY := Pending([], [], None, 0, 0)

  /** cfq_find_next_rq: the neighbours of a request, wrapping to the first. */
  function FindNext(sort: seq<Rq>, rq: Rq, t: Tuning): (r: Option<Rq>) {
    var after := Successor(sort, rq);
    var next := if after.Some? then after else if sort != [] && sort[0] != rq then Some(sort[0]) else None;
    ChooseReq(next, Predecessor(sort, rq), rq.sector, t)
  }

  function Counted(p: Pending, sync: bool, n: int): Pending {
    if sync then p.(queuedSync := p.queuedSync + n) else p.(queuedAsync := p.queuedAsync + n)
  }

  /** cfq_remove_request */
  function Remove(p: Pending, rq: Rq, t: Tuning): Pending {
    var next := if p.next == Some(rq) then FindNext(p.sort, rq, t) else p.next;
    Counted(p.(next := next, fifo := Erase(p.fifo, rq), sort := Erase(p.sort, rq)), rq.sync, -1)
  }

  /** cfq_dispatch_insert, as far as the queue is concerned. */
  function DispatchInsert(p: Pending, rq: Rq, t: Tuning): Pending {
    Remove(p.(next := FindNext(p.sort, rq, t)), rq, t)
  }

  /** cfq_add_rq_rb: a request at the same sector goes to the dispatch list first. */
  function AddSorted(p: Pending, rq: Rq, last: int, t: Tuning): Pending {
    var p1 := Counted(p, rq.sync, 1);
    var alias := Alias(p1.sort, rq.sector);
    var p2 := if alias.Some? then DispatchInsert(p1, alias.value, t) else p1;
    p2.(sort := Insert(p2.sort, rq), next := ChooseReq(p2.next, Some(rq), last, t))
  }

  /** cfq_insert_request */
  function Enqueue(p: Pending, rq: Rq, last: int, t: Tuning): Pending {
    AddSorted(p.(fifo := p.fifo + [rq]), rq, last, t)
  }

  /** cfq_reposition_rq_rb after a front merge moved the request's first sector. */
  function Reposition(p: Pending, rq: Rq, sector: int, last: int, t: Tuning): Pending {
    var rq' := rq.(sector := sector);
    var p1 := Counted(p.(sort := Erase(p.sort, rq), fifo := Subst(p.fifo, rq, rq'),
                         next := if p.next == Some(rq) then Some(rq') else p.next), rq.sync, -1);
    AddSorted(p1, rq', last, t)
  }

  /** What cfq_merged_requests does before it removes the absorbed request: an older one hands
      on its place in the fifo. */
  function Absorb(p: Pending, rq: Rq, next: Rq): Pending {
    var older := next.expires < rq.expires;
    var rq' := if older then rq.(expires := next.expires) else rq;
    var fifo := Subst(p.fifo, rq, rq');
    p.(sort := Subst(p.sort, rq, rq'), fifo := if older then MoveBehind(fifo, rq', next) else fifo,
       next := if p.next == Some(next) || p.next == Some(rq) then Some(rq') else p.next)
  }

  /** cfq_merged_requests */
  function MergeAway(p: Pending, rq: Rq, next: Rq, t: Tuning): Pending {
    Remove(Absorb(p, rq, next), next, t)
  }

  // ---------------------------------------------------------------------------
  // The invariant
  // ---------------------------------------------------------------------------

  ghost function Syncs(s: seq<Rq>): nat {
    if s == [] then 0 else Syncs(s[1..]) + if s[0].sync then 1 else 0
  }

  /** next_rq is null exactly when sort_list is empty. */
  ghost predicate NextOk(sort: seq<Rq>, next: Option<Rq>) {
    && (next.None? <==> sort == [])
    && (next.Some? ==> next.value in sort)
  }

  /** fifo and sort_list hold the same requests, next_rq is one of them, and they are counted. */
  ghost predicate Tidy(p: Pending) {
    && Ascending(p.sort)
    && multiset(p.fifo) == multiset(p.sort)
    && NextOk(p.sort, p.next)
    && p.queuedSync == Syncs(p.sort)
    && p.queuedAsync == |p.sort| - Syncs(p.sort)
  }

  ghost function Members(p: Pending): set<Rq> {
    set r | r in p.sort
  }

  lemma {:induction false} SyncsConcat(a: seq<Rq>, b: seq<Rq>)
    ensures Syncs(a + b) == Syncs(a) + Syncs(b)
  {
    if a == [] {
      assert a + b == b;
    } else {
      SyncsConcat(a[1..], b);
      assert (a + b)[1..] == a[1..] + b;
    }
  }

  lemma SyncsOne(r: Rq)
    ensures Syncs([r]) == if r.sync then 1 else 0
  {
    assert [r][1..] == [];
  }

  lemma SyncsInsert(t: seq<Rq>, rq: Rq)
    ensures Syncs(Insert(t, rq)) == Syncs(t) + if rq.sync then 1 else 0
  {
    var r := Rank(t, rq.sector);
    SyncsConcat(t[..r], [rq]);
    SyncsConcat(t[..r] + [rq], t[r..]);
    SyncsConcat(t[..r], t[r..]);
    SyncsOne(rq);
    assert t == t[..r] + t[r..];
  }

  lemma SyncsErase(t: seq<Rq>, rq: Rq)
    requires rq in t
    ensures Syncs(Erase(t, rq)) == Syncs(t) - if rq.sync then 1 else 0
  {
    var i := IndexOf(t, rq);
    SyncsConcat(t[..i], [rq]);
    SyncsConcat(t[..i] + [rq], t[i+1..]);
    SyncsConcat(t[..i], t[i+1..]);
    SyncsOne(rq);
    assert t == t[..i] + [rq] + t[i+1..];
  }

  /** cfq_find_next_rq finds another request exactly when there is one. */
  lemma FindNextOk(sort: seq<Rq>, rq: Rq, t: Tuning)
    requires Ascending(sort) && rq in sort
    ensures NextOk(Erase(sort, rq), FindNext(sort, rq, t))
  {
    var i := IndexOf(sort, rq);
    EraseMembers(sort, rq);
    EraseHas(sort, rq);
    var r := FindNext(sort, rq, t);
    if r.Some? {
      assert r.value in sort && r.value != rq;
    }
  }

  lemma RemoveKeeps(p: Pending, rq: Rq, t: Tuning)
    requires Tidy(p) && rq in p.sort
    ensures Tidy(Remove(p, rq, t)) && Members(Remove(p, rq, t)) == Members(p) - {rq}
  {
    hide Ascending, Erase, FindNext, Syncs;
    NextAfterRemove(p, rq, t);
    EraseKeeps(p.sort, rq);
    EraseMembers(p.sort, rq);
    EraseHas(p.sort, rq);
    assert rq in multiset(p.fifo);
    EraseHas(p.fifo, rq);
    SyncsErase(p.sort, rq);
  }

  lemma NextAfterRemove(p: Pending, rq: Rq, t: Tuning)
    requires Tidy(p) && rq in p.sort
    ensures NextOk(Erase(p.sort, rq), Remove(p, rq, t).next)
  {
    hide Ascending, Erase, FindNext, Syncs;
    if p.next == Some(rq) {
      FindNextOk(p.sort, rq, t);
    } else {
      EraseMembers(p.sort, rq);
      EraseHas(p.sort, rq);
    }
  }

  lemma DispatchIs(p: Pending, rq: Rq, t: Tuning)
    requires Ascending(p.sort) && rq in p.sort
    ensures DispatchInsert(p, rq, t)
         == Counted(p.(next := FindNext(p.sort, rq, t), fifo := Erase(p.fifo, rq), sort := Erase(p.sort, rq)), rq.sync, -1)
  {
    hide Ascending, Erase, FindNext;
    FindNextOk(p.sort, rq, t);
    EraseMembers(p.sort, rq);
  }

  /** One request leaves, and the rest is in order. */
  lemma DispatchKeeps(p: Pending, rq: Rq, t: Tuning)
    requires Tidy(p) && rq in p.sort
    ensures Tidy(DispatchInsert(p, rq, t)) && Members(DispatchInsert(p, rq, t)) == Members(p) - {rq}
  {
    hide Ascending, Erase, FindNext, Syncs, DispatchInsert;
    DispatchIs(p, rq, t);
    FindNextOk(p.sort, rq, t);
    EraseKeeps(p.sort, rq);
    EraseMembers(p.sort, rq);
    EraseHas(p.sort, rq);
    assert rq in multiset(p.fifo);
    EraseHas(p.fifo, rq);
    SyncsErase(p.sort, rq);
  }

  /** All but the request being added is in order; it is already on the fifo. */
  ghost predicate Ready(p: Pending, rq: Rq) {
    && Ascending(p.sort)
    && rq !in p.sort
    && multiset(p.fifo) == multiset(p.sort) + multiset{rq}
    && (p.next.None? ==> p.sort == [])
    && (p.next.Some? ==> p.next.value in p.sort || p.next.value == rq)
    && p.queuedSync == Syncs(p.sort)
    && p.queuedAsync == |p.sort| - Syncs(p.sort)
  }

  ghost function WithoutAlias(s: set<Rq>, sector: int): set<Rq> {
    set r | r in s && r.sector != sector
  }

  lemma TakeBeside(s: multiset<Rq>, a: Rq, r: Rq)
    requires a in s
    ensures s + multiset{r} - multiset{a} == s - multiset{a} + multiset{r}
  {
  }

  lemma ReadyWithoutAlias(p: Pending, rq: Rq, a: Rq, t: Tuning)
    requires Ready(p, rq) && a in p.sort
    ensures Ready(DispatchInsert(p, a, t), rq)
    ensures Members(DispatchInsert(p, a, t)) == Members(p) - {a}
  {
    hide Ascending, Erase, FindNext, Syncs, DispatchInsert;
    DispatchIs(p, a, t);
    FindNextOk(p.sort, a, t);
    EraseKeeps(p.sort, a);
    EraseMembers(p.sort, a);
    EraseHas(p.sort, a);
    SyncsErase(p.sort, a);
    assert a in multiset(p.sort);
    FifoWithoutAlias(p.fifo, multiset(p.sort), a, rq);
  }

  lemma FifoWithoutAlias(fifo: seq<Rq>, s: multiset<Rq>, a: Rq, r: Rq)
    requires multiset(fifo) == s + multiset{r} && a in s
    ensures multiset(Erase(fifo, a)) == s - multiset{a} + multiset{r}
  {
    hide Erase;
    assert a in multiset(fifo);
    EraseHas(fifo, a);
    TakeBeside(s, a, r);
  }

  lemma InsertReady(p: Pending, rq: Rq, last: int, t: Tuning)
    requires Ready(p, rq) && Alias(p.sort, rq.sector).None?
    ensures Tidy(Counted(p, rq.sync, 1).(sort := Insert(p.sort, rq), next := ChooseReq(p.next, Some(rq), last, t)))
  {
    hide Ascending, Insert, Syncs, Better;
    InsertKeeps(p.sort, rq);
    InsertHas(p.sort, rq);
    SyncsInsert(p.sort, rq);
    assert |multiset(Insert(p.sort, rq))| == |p.sort| + 1;
  }

  lemma CountedCommutes(p: Pending, rq: Rq, a: Rq, t: Tuning)
    ensures DispatchInsert(Counted(p, rq.sync, 1), a, t) == Counted(DispatchInsert(p, a, t), rq.sync, 1)
  {
  }

  /** cfq_add_rq_rb restores the order; its BUG_ON on a null next_rq cannot fire. */
  lemma AddSortedKeeps(p: Pending, rq: Rq, last: int, t: Tuning)
    requires Ready(p, rq)
    ensures Tidy(AddSorted(p, rq, last, t))
    ensures Members(AddSorted(p, rq, last, t)) == WithoutAlias(Members(p), rq.sector) + {rq}
    ensures AddSorted(p, rq, last, t).next.Some?
  {
    hide Ready, Tidy, DispatchInsert, Insert, Better;
    var alias := Alias(p.sort, rq.sector);
    ReadyIsSorted(p, rq);
    AliasFound(p.sort, rq.sector);
    InsertHas(p.sort, rq);
    if alias.Some? {
      ReadyWithoutAlias(p, rq, alias.value, t);
      CountedCommutes(p, rq, alias.value, t);
      var p2 := DispatchInsert(p, alias.value, t);
      ReadyIsSorted(p2, rq);
      OnlyAlias(p.sort, alias.value);
      assert Members(p2) == WithoutAlias(Members(p), rq.sector);
      assert forall r | r in p2.sort :: r in Members(p2);
      AliasFound(p2.sort, rq.sector);
      InsertReady(p2, rq, last, t);
      InsertHas(p2.sort, rq);
    } else {
      InsertReady(p, rq, last, t);
      assert forall r | r in Members(p) :: r in p.sort;
    }
  }

  lemma OnlyAlias(sort: seq<Rq>, a: Rq)
    requires Ascending(sort) && a in sort
    ensures forall r | r in sort && r != a :: r.sector != a.sector
  {
  }

  lemma ReadyIsSorted(p: Pending, rq: Rq)
    requires Ready(p, rq)
    ensures Ascending(p.sort)
  {
  }

  lemma EnqueueKeeps(p: Pending, rq: Rq, last: int, t: Tuning)
    requires Tidy(p) && rq !in p.sort
    ensures Tidy(Enqueue(p, rq, last, t))
    ensures Members(Enqueue(p, rq, last, t)) == WithoutAlias(Members(p), rq.sector) + {rq}
  {
    hide Ascending, Syncs, AddSorted;
    AddSortedKeeps(p.(fifo := p.fifo + [rq]), rq, last, t);
  }

  /** A front merge moves a request; whatever starts at its new sector is dispatched. */
  lemma RepositionKeeps(p: Pending, rq: Rq, sector: int, last: int, t: Tuning)
    requires Tidy(p) && rq in p.sort && rq.(sector := sector) !in p.sort
    ensures Tidy(Reposition(p, rq, sector, last, t))
    ensures Members(Reposition(p, rq, sector, last, t)) == WithoutAlias(Members(p) - {rq}, sector) + {rq.(sector := sector)}
  {
    hide Ascending, Erase, Syncs, AddSorted;
    var rq' := rq.(sector := sector);
    EraseKeeps(p.sort, rq);
    EraseMembers(p.sort, rq);
    EraseHas(p.sort, rq);
    Distinct(p.sort);
    assert rq in multiset(p.sort);
    SubstMultiset(p.fifo, rq, rq');
    SyncsErase(p.sort, rq);
    var p1 := Counted(p.(sort := Erase(p.sort, rq), fifo := Subst(p.fifo, rq, rq'),
                         next := if p.next == Some(rq) then Some(rq') else p.next), rq.sync, -1);
    assert Members(p1) == Members(p) - {rq};
    AddSortedKeeps(p1, rq', last, t);
  }

  lemma {:induction false} SubstSyncs(s: seq<Rq>, x: Rq, y: Rq)
    requires x.sync == y.sync
    ensures Syncs(Subst(s, x, y)) == Syncs(s)
  {
    if s != [] {
      SubstSyncs(s[1..], x, y);
      assert Subst(s, x, y)[1..] == Subst(s[1..], x, y);
    }
  }

  lemma AbsorbedFifo(p: Pending, rq: Rq, next: Rq)
    requires multiset(p.fifo) == multiset(p.sort) && Ascending(p.sort) && rq in p.sort
    ensures multiset(Absorb(p, rq, next).fifo) == multiset(Absorb(p, rq, next).sort)
  {
    hide Ascending, Subst, MoveBehind;
    var rq' := if next.expires < rq.expires then rq.(expires := next.expires) else rq;
    Distinct(p.sort);
    assert rq in multiset(p.sort) && rq in multiset(p.fifo);
    SubstMultiset(p.sort, rq, rq');
    SubstMultiset(p.fifo, rq, rq');
    SubstHas(p.fifo, rq, rq');
    MoveBehindHas(Subst(p.fifo, rq, rq'), rq', next);
  }

  lemma AbsorbKeeps(p: Pending, rq: Rq, next: Rq)
    requires Tidy(p) && rq in p.sort && next in p.sort && rq != next
    ensures Tidy(Absorb(p, rq, next)) && next in Absorb(p, rq, next).sort
    ensures var rq' := if next.expires < rq.expires then rq.(expires := next.expires) else rq;
            Members(Absorb(p, rq, next)) == Members(p) - {rq} + {rq'}
  {
    hide Ascending, Syncs, Subst, MoveBehind;
    var rq' := if next.expires < rq.expires then rq.(expires := next.expires) else rq;
    AbsorbedFifo(p, rq, next);
    SubstAscending(p.sort, rq, rq');
    SubstSyncs(p.sort, rq, rq');
    SubstHas(p.sort, rq, rq');
  }

  lemma FifoUnique(p: Pending)
    requires Tidy(p)
    ensures forall x :: multiset(p.fifo)[x] <= 1
    ensures forall x :: x in p.fifo <==> x in p.sort
  {
    hide Syncs, NextOk;
    Distinct(p.sort);
    forall x ensures x in p.fifo <==> x in p.sort {
      assert x in p.fifo <==> x in multiset(p.fifo);
      assert x in p.sort <==> x in multiset(p.sort);
    }
  }

  lemma SameSector(t: seq<Rq>, x: Rq, y: Rq)
    requires Ascending(t) && x in t && y in t && x.sector == y.sector
    ensures x == y
  {
  }

  /** Moving the request behind an older one that then leaves puts it in that one's place. */
  lemma MovedIntoPlace(f: seq<Rq>, rq: Rq, rq': Rq, next: Rq)
    requires (forall x :: multiset(f)[x] <= 1) && rq in f && next in f && rq != next && rq' !in f
    ensures Erase(MoveBehind(Subst(f, rq, rq'), rq', next), next) == Subst(Erase(f, rq), next, rq')
  {
    hide Subst, Erase, IndexOf;
    SwappedErased(f, rq, rq', next);
    PlacedBehind(Erase(f, rq), rq', next);
  }

  /** Without the request, the list is the same under its old name and its new one. */
  lemma SwappedErased(f: seq<Rq>, rq: Rq, rq': Rq, next: Rq)
    requires (forall x :: multiset(f)[x] <= 1) && rq in f && next in f && rq != next && rq' !in f
    ensures Erase(Subst(f, rq, rq'), rq') == Erase(f, rq)
    ensures next in Erase(f, rq) && forall x :: multiset(Erase(f, rq))[x] <= 1
  {
    var i := IndexOf(f, rq);
    OnceAt(f, i);
    SubstOnce(f, i, rq');
    ErasePlaced(f[..i], rq', f[i+1..]);
    EraseHas(f, rq);
    assert next in multiset(Erase(f, rq));
  }

  lemma Reassociated(f: seq<Rq>, k: nat, x: Rq)
    requires k < |f|
    ensures f[..k+1] + [x] + f[k+1..] == f[..k] + [f[k]] + ([x] + f[k+1..])
    ensures f[..k] + ([x] + f[k+1..]) == f[..k] + [x] + f[k+1..]
  {
  }

  lemma PlacedBehind(f: seq<Rq>, x: Rq, next: Rq)
    requires next in f && multiset(f)[next] <= 1
    ensures var k := IndexOf(f, next); Erase(f[..k+1] + [x] + f[k+1..], next) == Subst(f, next, x)
  {
    hide Subst, Erase;
    var k := IndexOf(f, next);
    OnceAt(f, k);
    SubstOnce(f, k, x);
    ErasePlaced(f[..k], next, [x] + f[k+1..]);
    Reassociated(f, k, x);
  }

  lemma OnceAt(f: seq<Rq>, i: nat)
    requires i < |f| && multiset(f)[f[i]] <= 1
    ensures f[i] !in f[..i] && f[i] !in f[i+1..]
  {
    assert f == f[..i] + [f[i]] + f[i+1..];
    assert multiset(f) == multiset(f[..i]) + multiset{f[i]} + multiset(f[i+1..]);
  }

  lemma ErasePlaced(a: seq<Rq>, x: Rq, b: seq<Rq>)
    requires x !in a
    ensures Erase(a + [x] + b, x) == a + b
  {
    var t := a + [x] + b;
    assert t[|a|] == x && t[..|a|] == a && t[|a|+1..] == b;
    IndexIs(t, x, |a|);
  }

  lemma MergedPlace(p: Pending, rq: Rq, next: Rq, t: Tuning)
    requires Tidy(p) && rq in p.sort && next in p.sort && rq != next
    ensures var rq' := if next.expires < rq.expires then rq.(expires := next.expires) else rq;
            MergeAway(p, rq, next, t).fifo == if next.expires < rq.expires then Subst(Erase(p.fifo, rq), next, rq') else Erase(p.fifo, next)
  {
    hide Syncs, NextOk, Erase, MoveBehind, FindNext;
    FifoUnique(p);
    if next.expires < rq.expires {
      var rq' := rq.(expires := next.expires);
      if rq' in p.sort {
        SameSector(p.sort, rq, rq');
      }
      MovedIntoPlace(p.fifo, rq, rq', next);
    } else {
      assert Subst(p.fifo, rq, rq) == p.fifo;
    }
  }

  /** One request is absorbed by another of the same queue. */
  lemma MergeKeeps(p: Pending, rq: Rq, next: Rq, t: Tuning)
    requires Tidy(p) && rq in p.sort && next in p.sort && rq != next
    ensures Tidy(MergeAway(p, rq, next, t))
    ensures var rq' := if next.expires < rq.expires then rq.(expires := next.expires) else rq;
            && Members(MergeAway(p, rq, next, t)) == Members(p) - {rq} + {rq'} - {next}
            && MergeAway(p, rq, next, t).fifo == if next.expires < rq.expires then Subst(Erase(p.fifo, rq), next, rq') else Erase(p.fifo, next)
  {
    hide Tidy, Members, Absorb, Remove;
    MergedPlace(p, rq, next, t);
    AbsorbKeeps(p, rq, next);
    RemoveKeeps(Absorb(p, rq, next), next, t);
  }

  // ---------------------------------------------------------------------------
  // Draining one queue
  // ---------------------------------------------------------------------------

  lemma DispatchShrinks(p: Pending, rq: Rq, t: Tuning)
    requires Tidy(p) && rq in p.sort
    ensures multiset(DispatchInsert(p, rq, t).sort) == multiset(p.sort) - multiset{rq}
    ensures |DispatchInsert(p, rq, t).sort| == |p.sort| - 1
    ensures multiset(p.sort)[rq] == 1
  {
    hide Ascending, Syncs, DispatchInsert, Erase, FindNext;
    DispatchIs(p, rq, t);
    EraseHas(p.sort, rq);
    Distinct(p.sort);
    assert rq in multiset(p.sort);
  }
}
