/** What next_rq, the fifo, the trees and the group times mean after each operation. */
module CfqOrder {
  import opened Common
  import opened RequestTree
  import opened CfqRequests
  import opened CfqGroups
  import opened CfqQueues
  import opened CfqBooks
  import opened CfqSteps

  // ---------------------------------------------------------------------------
  // next_rq
  // ---------------------------------------------------------------------------

  /** x is next above rq, or first of all if nothing is above. */
  ghost predicate Follows(sort: seq<Rq>, rq: Rq, x: Rq) {
    && x in sort && x != rq
    && if x.sector > rq.sector then forall r | r in sort && r.sector > rq.sector :: x.sector <= r.sector
       else forall r | r in sort :: r.sector <= rq.sector && x.sector <= r.sector
  }

  /** x is next below rq. */
  ghost predicate Precedes(sort: seq<Rq>, rq: Rq, x: Rq) {
    x in sort && x.sector < rq.sector && forall r | r in sort && r.sector < rq.sector :: r.sector <= x.sector
  }

  lemma SuccessorFollows(sort: seq<Rq>, rq: Rq)
    requires Ascending(sort) && rq in sort
    ensures var next := if Successor(sort, rq).Some? then Successor(sort, rq) else if sort[0] != rq then Some(sort[0]) else None;
            forall x :: Follows(sort, rq, x) <==> next == Some(x)
  {
    var i := IndexOf(sort, rq);
    var next := if Successor(sort, rq).Some? then Successor(sort, rq) else if sort[0] != rq then Some(sort[0]) else None;
    forall x ensures Follows(sort, rq, x) <==> next == Some(x) {
      if Follows(sort, rq, x) {
        var k :| 0 <= k < |sort| && sort[k] == x;
        if i + 1 < |sort| { assert sort[i + 1] in sort; }
        assert sort[0] in sort;
      } else if next == Some(x) {
        assert x in sort;
        forall r | r in sort
          ensures if i + 1 < |sort| then r.sector > rq.sector ==> x.sector <= r.sector
                  else r.sector <= rq.sector && x.sector <= r.sector
        {
          var k :| 0 <= k < |sort| && sort[k] == r;
        }
      }
    }
  }

  lemma PredecessorPrecedes(sort: seq<Rq>, rq: Rq)
    requires Ascending(sort) && rq in sort
    ensures forall x :: Precedes(sort, rq, x) <==> Predecessor(sort, rq) == Some(x)
  {
    var i := IndexOf(sort, rq);
    forall x ensures Precedes(sort, rq, x) <==> Predecessor(sort, rq) == Some(x) {
      if Precedes(sort, rq, x) {
        var k :| 0 <= k < |sort| && sort[k] == x;
        assert k < i;
        assert sort[i - 1] in sort;
      }
    }
  }

  /** cfq_find_next_rq finds one of the two neighbours, the first request standing in for one above;
      neither is preferable to it, seen from the end of the sweep. */
  lemma FindNextBest(sort: seq<Rq>, rq: Rq, t: Tuning)
    requires Ascending(sort) && rq in sort
    ensures FindNext(sort, rq, t).Some? ==>
              var x := FindNext(sort, rq, t).value;
              && (Follows(sort, rq, x) || Precedes(sort, rq, x))
              && forall y | Follows(sort, rq, y) || Precedes(sort, rq, y) :: !Better(y, x, rq.sector, t)
    ensures FindNext(sort, rq, t).None? ==> forall y :: !Follows(sort, rq, y) && !Precedes(sort, rq, y)
  {
    hide Follows, Precedes, Better, Successor, Predecessor, ChooseReq;
    SuccessorFollows(sort, rq);
    PredecessorPrecedes(sort, rq);
  }

  /** After an insertion next_rq is the new request or the one before, neither being preferable to it;
      if a request at the same sector had to go, the one before is its best neighbour. */
  lemma EnqueueNext(p: Pending, rq: Rq, last: int, t: Tuning)
    requires Tidy(p) && rq !in p.sort
    ensures var p', alias := Enqueue(p, rq, last, t), Alias(p.sort, rq.sector);
            var was := if alias.Some? then FindNext(p.sort, alias.value, t) else p.next;
            && p'.next.Some? && (p'.next == Some(rq) || p'.next == was)
            && !Better(rq, p'.next.value, last, t) && (was.Some? ==> !Better(was.value, p'.next.value, last, t))
  {
    hide Better, ChooseReq, Erase, Insert, Alias, FindNext, Tidy;
    var alias := Alias(p.sort, rq.sector);
    if alias.Some? {
      OtherNext(p, alias.value, t);
    }
  }

  lemma OtherNext(p: Pending, x: Rq, t: Tuning)
    requires Tidy(p) && x in p.sort
    ensures FindNext(p.sort, x, t) != Some(x)
  {
    hide Better;
    NotItself(p.sort, x);
  }

  lemma NotItself(sort: seq<Rq>, x: Rq)
    requires Ascending(sort) && x in sort
    ensures Successor(sort, x) != Some(x) && Predecessor(sort, x) != Some(x)
  {
  }

  /** After a dispatch next_rq is the best neighbour of the request that went. */
  lemma DispatchNext(p: Pending, rq: Rq, t: Tuning)
    requires Tidy(p) && rq in p.sort
    ensures DispatchInsert(p, rq, t).next == FindNext(p.sort, rq, t)
  {
    hide Erase, FindNext, Tidy;
    OtherNext(p, rq, t);
  }

  /** After a merge next_rq stays, or passes from the absorbed request to the one that absorbed it. */
  lemma MergeNext(p: Pending, rq: Rq, next: Rq, t: Tuning)
    requires Tidy(p) && rq in p.sort && next in p.sort && rq != next
    ensures var rq' := if next.expires < rq.expires then rq.(expires := next.expires) else rq;
            MergeAway(p, rq, next, t).next == if p.next == Some(next) || p.next == Some(rq) then Some(rq') else p.next
  {
    hide Erase, Subst, FindNext, MoveBehind;
    NotSame(p.sort, rq, next);
  }

  lemma NotSame(sort: seq<Rq>, x: Rq, y: Rq)
    requires Ascending(sort) && x in sort && y in sort && x != y
    ensures x.sector != y.sector
  {
  }

  // ---------------------------------------------------------------------------
  // The fifo
  // ---------------------------------------------------------------------------

  /** New requests go to the end of the fifo, dispatched ones leave it, and a front merge keeps the
      place. */
  lemma FifoOrder(p: Pending, rq: Rq, last: int, t: Tuning)
    ensures var alias := Alias(p.sort, rq.sector);
            Enqueue(p, rq, last, t).fifo == if alias.Some? then Erase(p.fifo + [rq], alias.value) else p.fifo + [rq]
    ensures DispatchInsert(p, rq, t).fifo == Erase(p.fifo, rq)
    ensures forall sector: int ::
              var rq' := rq.(sector := sector);
              var alias, fifo := Alias(Erase(p.sort, rq), sector), Subst(p.fifo, rq, rq');
              Reposition(p, rq, sector, last, t).fifo == if alias.Some? then Erase(fifo, alias.value) else fifo
  {
    hide Erase, Subst, Insert, Alias, FindNext, ChooseReq;
  }

  // ---------------------------------------------------------------------------
  // No request is lost
  // ---------------------------------------------------------------------------

  /** From d to d' request rq' takes the place of those in `left`; what else starts at its sector in
      queue q is dispatched; and nothing else happens to any request. */
  ghost predicate Joined(d: Cfqd, d': Cfqd, q: nat, left: set<(nat, Rq)>, rq': Rq) {
    && (forall x :: x in AllRqs(d'.queues) <==> x == (q, rq') || (x in AllRqs(d.queues) - left && !(x.0 == q && x.1.sector == rq'.sector)))
    && (forall r | (q, r) in AllRqs(d.queues) - left && r.sector == rq'.sector :: d'.dispatched == d.dispatched + [(q, r)])
    && ((forall r | (q, r) in AllRqs(d.queues) - left :: r.sector != rq'.sector) ==> d'.dispatched == d.dispatched)
  }

  lemma AliasIs(t: seq<Rq>, s: int, r: Rq)
    requires Ascending(t) && r in t && r.sector == s
    ensures Alias(t, s) == Some(r)
  {
    AliasFound(t, s);
    Distinct(t, r);
  }

  lemma Distinct(t: seq<Rq>, r: Rq)
    requires Ascending(t) && r in t
    ensures forall x | x in t && x.sector == r.sector :: x == r
  {
  }

  lemma TreeInOrder(p: Pending)
    requires Tidy(p)
    ensures Ascending(p.sort)
  {
  }

  lemma RequestsOf(qs: Queues, q: nat, r: Rq)
    requires q in qs
    ensures (q, r) in AllRqs(qs) <==> r in qs[q].pending.sort
  {
  }

  lemma PendingIs(d: Cfqd, q: nat, p': Pending, gone: set<Rq>, rq': Rq)
    requires q in d.queues && Members(p') == WithoutAlias(Members(d.queues[q].pending) - gone, rq'.sector) + {rq'}
    ensures forall x :: x in AllRqs(SetPending(d, q, p').queues) <==>
              x == (q, rq') || (x in AllRqs(d.queues) && !(x.0 == q && (x.1 in gone || x.1.sector == rq'.sector)))
  {
    var p, qs, qs' := d.queues[q].pending, d.queues, SetPending(d, q, p').queues;
    assert forall r :: r in p'.sort <==> r in Members(p');
    assert forall r :: r in p.sort <==> r in Members(p);
    forall x ensures x in AllRqs(qs') <==> x == (q, rq') || (x in AllRqs(qs) && !(x.0 == q && (x.1 in gone || x.1.sector == rq'.sector))) {
    }
  }

  /** t is the tree that the alias of rq' is looked up in. */
  lemma JoinedAfter(d: Cfqd, q: nat, p': Pending, gone: set<Rq>, rq': Rq, t: seq<Rq>)
    requires q in d.queues && Members(p') == WithoutAlias(Members(d.queues[q].pending) - gone, rq'.sector) + {rq'}
    requires Ascending(t) && forall r :: r in t <==> r in d.queues[q].pending.sort && r !in gone
    ensures Joined(d, AliasLeaves(SetPending(d, q, p'), q, Alias(t, rq'.sector)), q, set r | r in gone :: (q, r), rq')
  {
    hide AllRqs, Ascending, Alias, Members, WithoutAlias;
    PendingIs(d, q, p', gone, rq');
    var left := set r | r in gone :: (q, r);
    AliasFound(t, rq'.sector);
    forall r ensures (q, r) in AllRqs(d.queues) - left <==> r in t {
      RequestsOf(d.queues, q, r);
    }
    forall r | r in t && r.sector == rq'.sector ensures Alias(t, rq'.sector) == Some(r) {
      AliasIs(t, rq'.sector, r);
    }
  }

  lemma JoinedSame(d: Cfqd, d1: Cfqd, d2: Cfqd, q: nat, left: set<(nat, Rq)>, rq': Rq)
    requires Joined(d, d1, q, left, rq') && AllRqs(d2.queues) == AllRqs(d1.queues) && d2.dispatched == d1.dispatched
    ensures Joined(d, d2, q, left, rq')
  {
    hide AllRqs;
  }

  /** A new request joins; one at its sector is dispatched; no other request is touched. */
  lemma InsertConserves(d: Cfqd, q: nat, rq: Rq, key: int)
    requires Books(d) && q in d.queues && rq !in d.queues[q].pending.sort
    ensures Joined(d, InsertRq(d, q, rq, key), q, {}, rq)
  {
    hide Placed, Tidy, RrOk, AllRqs, Enqueue, Alias, AddRr, Joined, Members, WithoutAlias;
    TidyOf(d, q);
    var p := d.queues[q].pending;
    var p' := Enqueue(p, rq, d.lastPos, d.tuning);
    EnqueueKeeps(p, rq, d.lastPos, d.tuning);
    TreeInOrder(p);
    var none: set<Rq> := {};
    assert Members(p) - none == Members(p);
    var d1 := AliasLeaves(SetPending(d, q, p'), q, Alias(p.sort, rq.sector));
    JoinedAfter(d, q, p', none, rq, p.sort);
    assert (set r | r in none :: (q, r)) == {};
    if !d1.queues[q].onRR {
      PendingPlaced(d, q, p');
      PlacedElse(SetPending(d, q, p'), d1);
      PendingRr(d, q, p');
      AddRrKeeps(d1, q, key);
      AllRqsSame(d1.queues, q, AddRr(d1, q, key).queues[q]);
    }
    JoinedSame(d, d1, InsertRq(d, q, rq, key), q, {}, rq);
  }

  /** A request moves to a new first sector; one there is dispatched; no other request is touched. */
  lemma RepositionConserves(d: Cfqd, q: nat, rq: Rq, sector: int)
    requires Books(d) && q in d.queues && rq in d.queues[q].pending.sort && rq.(sector := sector) !in d.queues[q].pending.sort
    ensures Joined(d, RepositionRq(d, q, rq, sector), q, {(q, rq)}, rq.(sector := sector))
  {
    hide Placed, Tidy, RrOk, AllRqs, Reposition, Alias, Erase, Joined, Members, WithoutAlias;
    TidyOf(d, q);
    var p := d.queues[q].pending;
    RepositionKeeps(p, rq, sector, d.lastPos, d.tuning);
    TreeInOrder(p);
    EraseKeeps(p.sort, rq);
    EraseMembers(p.sort, rq);
    var gone := {rq};
    JoinedAfter(d, q, Reposition(p, rq, sector, d.lastPos, d.tuning), gone, rq.(sector := sector), Erase(p.sort, rq));
    assert (set r | r in gone :: (q, r)) == {(q, rq)};
  }

  // ---------------------------------------------------------------------------
  // Trees
  // ---------------------------------------------------------------------------

  /** The tree of a queue, by its class and type. */
  ghost predicate OfItsClass(c: Cfqq, kind: nat) {
    if c.idleClass then kind == IDLE
    else
      var prio := if c.rtClass then RT else BE;
      prio <= kind <= prio + SYNC
      && (kind == prio + ASYNC <==> !c.sync) && (kind == prio + SYNC <==> c.sync && c.idleWindow)
  }

  /** The group a queue comes from, whichever it is served in. */
  ghost function Home(c: Cfqq): nat {
    if c.orig.Some? then c.orig.value else c.group
  }

  /** Which group a queue belongs to: without isolation all seeky sync queues share the root group, and
      go home when they turn sequential. */
  ghost predicate OfItsGroup(c: Cfqq, isolation: bool, group: nat) {
    if isolation || !c.sync then group == c.group
    else if !c.idleWindow then group == ROOT
    else group == Home(c)
  }

  /** A queue is linked by its key on the tree of its class and type, in its group. */
  lemma LinkedRight(d: Cfqd, q: nat, key: int, front: bool)
    requires q in d.queues
    ensures var d', c := ServiceTreeAdd(d, q, key, front), d.queues[q];
            && q in d'.queues && d'.queues[q].tree.Some? && Vt(d'.keys, q) == key
            && OfItsClass(c, d'.queues[q].tree.value.kind)
            && OfItsGroup(c, d.isolation, d'.queues[q].tree.value.group)
            && ((c.orig.Some? ==> c.group == ROOT) ==> Home(d'.queues[q]) == Home(c))
  {
    hide TreeLink, TreesWithout, GroupAdd, GroupDel;
    GroupOpsKeep(d, d.queues[q].group);
    var c1 := Regrouped(d.queues[q], d.isolation);
    var d1 := if c1 != d.queues[q] && d.queues[q].tree.Some? then GroupDel(d, d.queues[q].group) else d;
    GroupOpsKeep(Relinked(d1, q, d.queues[q].tree, c1, TreeId(c1.group, KindOf(c1)), key), c1.group);
  }

  lemma GroupOpsKeep(d: Cfqd, g: nat)
    ensures GroupAdd(d, g).queues == d.queues && GroupAdd(d, g).keys == d.keys && GroupAdd(d, g).isolation == d.isolation
    ensures GroupDel(d, g).queues == d.queues && GroupDel(d, g).keys == d.keys && GroupDel(d, g).isolation == d.isolation
  {
    hide AddGroup, GroupLess, GroupTreeLess;
  }

  /** A preempting queue is linked, and nothing is active. */
  lemma PreemptLinks(d: Cfqd, q: nat, charge: nat, key: int, key': int)
    requires Books(d) && q in d.queues
    ensures var d' := Preempt(d, q, charge, key, key');
            d'.active.None? && q in d'.queues && d'.queues[q].tree.Some? && Vt(d'.keys, q) == key'
  {
    hide Placed, AllRqs, OnRr, SliceExpired, ServiceTreeAdd;
    ExpireActiveKeeps(d, charge, key);
    if d.active.Some? {
      ExpiredQueue(d, d.active.value, charge, key);
    }
    var d1 := ExpireActive(d, charge, key);
    LinkedRight(d1, q, key', true);
    ServiceTreeActive(d1, q, key', true);
  }

  lemma ServiceTreeActive(d: Cfqd, q: nat, key: int, front: bool)
    requires q in d.queues
    ensures ServiceTreeAdd(d, q, key, front).active == d.active
  {
    hide TreeLink, TreesWithout, AddGroup, GroupLess, GroupTreeLess, Regrouped, KindOf;
  }

  // ---------------------------------------------------------------------------
  // Group times
  // ---------------------------------------------------------------------------

  /** A new group goes behind the last one, at a distance, or starts at min_vdisktime if it is alone. */
  lemma NewGroupIsLast(t: GroupTree, g: nat)
    requires TreeInv(t) && g !in t.nodes
    ensures var t' := AddGroup(t, g);
            && t'.nodes == t.nodes + [g]
            && (forall h | h != g :: Vt(t'.vt, h) == Vt(t.vt, h))
            && Vt(t'.vt, g) == if t.nodes == [] then t.minVt else Vt(t.vt, t.nodes[|t.nodes| - 1]) + IDLE_DELAY
  {
    hide NoDup;
    var v := if t.nodes != [] then Vt(t.vt, t.nodes[|t.nodes| - 1]) + IDLE_DELAY else t.minVt;
    var vt' := t.vt[g := v];
    forall j | 0 <= j < |t.nodes| ensures Vt(vt', t.nodes[j]) == Vt(t.vt, t.nodes[j]) <= v {
      assert t.nodes[j] in t.nodes;
    }
    assert Place(t.nodes, vt', v) == |t.nodes|;
  }

  /** A charge moves one group on, by the charge scaled by its weight. */
  lemma ServeTimes(t: GroupTree, g: nat, charge: nat)
    ensures Vt(Serve(t, g, charge).vt, g) == Vt(t.vt, g) + ScaleSlice(charge, Weight(t, g))
    ensures forall h | h != g :: Vt(Serve(t, g, charge).vt, h) == Vt(t.vt, h)
  {
    hide Place, Erase, ScaleSlice, Weight;
  }

  lemma LinkingTimes(d: Cfqd, q: nat, key: int, h: nat)
    requires q in d.queues && d.queues[q].tree.Some?
    requires var c := d.queues[q]; Regrouped(c, d.isolation) == c || h != Regrouped(c, d.isolation).group
    ensures Vt(ServiceTreeAdd(d, q, key, false).gt.vt, h) == Vt(d.gt.vt, h)
  {
    hide TreeLink, TreesWithout, Regrouped, KindOf, Place, Erase;
  }

  lemma LeavingTimes(d: Cfqd, q: nat, h: nat)
    requires q in d.queues
    ensures Vt(DelRr(d, q).gt.vt, h) == Vt(d.gt.vt, h)
  {
    hide TreesWithout, Erase;
  }

  /** When the active queue's slice ends, its group is charged for it. */
  lemma ExpiryCharges(d: Cfqd, q: nat, charge: nat, key: int)
    requires Books(d) && d.active == Some(q)
    ensures q in d.queues
    ensures var g := d.queues[q].group;
            Vt(SliceExpired(d, q, charge, key).gt.vt, g) == Vt(d.gt.vt, g) + ScaleSlice(charge, Weight(d.gt, g))
  {
    hide TreesOk, GroupsOk, TreeInv, QueuesOk, AllRqs, OnRr, Serve, DelRr, ServiceTreeAdd, ScaleSlice, Weight;
    var c := d.queues[q];
    var d1 := d.(gt := Serve(d.gt, c.group, charge));
    ServeTimes(d.gt, c.group, charge);
    if c.pending.sort == [] {
      LeavingTimes(d1, q, c.group);
      LeftRr(d1, q);
    } else {
      TidyOf(d, q);
      MovesElsewhere(c, d.isolation);
      LinkingTimes(d1, q, key, c.group);
    }
  }

  lemma LeftRr(d: Cfqd, q: nat)
    requires q in d.queues
    ensures q in DelRr(d, q).queues && !DelRr(d, q).queues[q].onRR
  {
    hide TreesWithout, GroupLess, GroupTreeLess;
  }

  lemma MovesElsewhere(c: Cfqq, isolation: bool)
    requires c.orig.Some? ==> c.orig.value != c.group
    ensures Regrouped(c, isolation) == c || Regrouped(c, isolation).group != c.group
  {
  }
}
