/** cfq_forced_dispatch drains the scheduler. */
module CfqForced {
  import opened Common
  import opened RequestTree
  import opened CfqRequests
  import opened CfqGroups
  import opened CfqQueues
  import opened CfqBooks
  import opened CfqSteps
  import opened CfqService

  /** The walk of for_each_cfqg_st. */
  function FirstQueue(d: Cfqd, g: nat, k: nat): Option<nat>
    decreases 7 - k
  {
    if k >= 7 then None
    else
      var q := TreeFirst(TreeAt(d.trees, TreeId(g, k)));
      if q.Some? then q else FirstQueue(d, g, k + 1)
  }

  /** cfq_get_next_queue_forced */
  function NextForced(d: Cfqd): (Cfqd, Option<nat>) {
    if d.rqQueued == 0 then (d, None)
    else
      var (gt, g) := NextGroup(d.gt);
      var d1 := d.(gt := gt);
      if g.None? then (d1, None) else (d1, FirstQueue(d1, g.value, 0))
  }

  lemma {:induction false} FirstQueueFinds(d: Cfqd, g: nat, k: nat)
    requires Books(d) && d.active.None? && k <= 7
    ensures FirstQueue(d, g, k).None? ==> forall j | k <= j < 7 :: Count(d, g, j) <= 0
    ensures FirstQueue(d, g, k).Some? ==>
              var q := FirstQueue(d, g, k).value; q in d.queues && d.queues[q].onRR && d.queues[q].pending.sort != []
    decreases 7 - k
  {
    hide Books, TreeFirst;
    if k < 7 {
      var t := TreeId(g, k);
      FirstQueueFinds(d, g, k + 1);
      if TreeFirst(TreeAt(d.trees, t)).Some? {
        FoundOnTree(d, t);
      } else if Count(d, g, k) > 0 {
        FirstExists(d, t);
      }
    }
  }

  /** While requests are queued, a queue that holds some is found. */
  lemma NextForcedFinds(d: Cfqd)
    requires Books(d) && d.active.None?
    ensures var (d1, q) := NextForced(d);
            && Books(d1) && d1.queues == d.queues && d1.dispatched == d.dispatched && d1.busy == d.busy && d1.active.None?
            && d1.rqQueued == d.rqQueued
            && (q.None? <==> d.rqQueued == 0)
            && (q.Some? ==> q.value in d1.queues && d1.queues[q.value].onRR && d1.queues[q.value].pending.sort != [])
  {
    hide Books, NextGroup, FirstQueue, SumCounts;
    RqsNotNegative(d);
    if d.rqQueued != 0 {
      GroupTreeNotEmpty(d);
      NextGroupOf(d);
      NextGroupBooks(d);
      var (gt, g) := NextGroup(d.gt);
      var d1 := d.(gt := gt);
      FirstQueueFinds(d1, g.value, 0);
      GroupHasQueue(d1, g.value);
      SumUnrolled(d1, g.value);
    }
  }

  /** What d has dispatched since d0, and what it still holds, is what d0 held. */
  ghost predicate Conserved(d0: Cfqd, d: Cfqd) {
    && d0.dispatched <= d.dispatched
    && multiset(d.dispatched[|d0.dispatched|..]) + multiset(AllRqs(d.queues)) == multiset(AllRqs(d0.queues))
  }

  lemma ConservedSame(d0: Cfqd, d: Cfqd, d': Cfqd)
    requires Conserved(d0, d) && d'.dispatched == d.dispatched && AllRqs(d'.queues) == AllRqs(d.queues)
    ensures Conserved(d0, d')
  {
  }

  lemma ConservedMoved(before: seq<(nat, Rq)>, now: seq<(nat, Rq)>, rest: set<(nat, Rq)>, all: set<(nat, Rq)>, x: (nat, Rq))
    requires before <= now && x in rest
    requires multiset(now[|before|..]) + multiset(rest) == multiset(all)
    ensures before <= now + [x]
    ensures multiset((now + [x])[|before|..]) + multiset(rest - {x}) == multiset(all)
  {
    assert (now + [x])[|before|..] == now[|before|..] + [x];
    assert multiset(rest) == multiset(rest - {x}) + multiset{x};
  }

  lemma DispatchMoves(d: Cfqd, q: nat, rq: Rq)
    requires Books(d) && q in d.queues && rq in d.queues[q].pending.sort
    ensures AllRqs(DispatchRq(d, q, rq).queues) == AllRqs(d.queues) - {(q, rq)}
    ensures (q, rq) in AllRqs(d.queues)
  {
    hide Placed, Tidy, OnRr, DispatchInsert, RrOk, Backed;
    TidyOf(d, q);
    DispatchKeeps(d.queues[q].pending, rq, d.tuning);
    var qs, qs' := d.queues, DispatchRq(d, q, rq).queues;
    assert forall r :: r in qs'[q].pending.sort <==> r in Members(qs'[q].pending);
    assert forall r :: r in qs[q].pending.sort <==> r in Members(qs[q].pending);
  }

  lemma DispatchConserves(d0: Cfqd, d: Cfqd, q: nat, rq: Rq)
    requires Books(d) && q in d.queues && rq in d.queues[q].pending.sort && Conserved(d0, d)
    ensures Conserved(d0, DispatchRq(d, q, rq))
  {
    hide Books, AllRqs, DispatchInsert;
    DispatchMoves(d, q, rq);
    ConservedMoved(d0.dispatched, d.dispatched, AllRqs(d.queues), AllRqs(d0.queues), (q, rq));
  }

  lemma NextIsPending(d: Cfqd, q: nat)
    requires Books(d) && q in d.queues
    ensures d.queues[q].pending.next.Some? ==> d.queues[q].pending.next.value in d.queues[q].pending.sort
    ensures d.queues[q].pending.next.None? ==> d.queues[q].pending.sort == [] && d.queues[q].pending.fifo == []
  {
    hide TreesOk, GroupsOk, TreeInv, RrOk, Backed, AllRqs, Ascending, Syncs;
    TidyOf(d, q);
    assert d.queues[q].pending.sort == [] ==> |multiset(d.queues[q].pending.fifo)| == 0;
  }

  lemma DispatchRest(d: Cfqd, q: nat, rq: Rq)
    requires q in d.queues
    ensures var d' := DispatchRq(d, q, rq); d'.busy == d.busy && d'.active == d.active && q in d'.queues && d'.rqQueued == d.rqQueued - 1
  {
  }

  lemma ConservedStart(d: Cfqd)
    ensures Conserved(d, d)
  {
    assert d.dispatched[|d.dispatched|..] == [];
  }

  lemma EmptyExpires(d0: Cfqd, d: Cfqd, q: nat, charge: nat, key: int)
    requires Books(d) && d.active == Some(q) && q in d.queues && d.queues[q].pending.sort == [] && Conserved(d0, d)
    ensures var d' := SliceExpired(d, q, charge, key);
            Books(d') && d'.active.None? && Conserved(d0, d') && d'.busy == d.busy - 1 && d'.busy >= 0 && d'.rqQueued == d.rqQueued
  {
    hide Placed, AllRqs, OnRr, SliceExpired, Conserved, Backed;
    ExpiredQueue(d, q, charge, key);
    SliceExpiredKeeps(d, q, charge, key);
    var d' := SliceExpired(d, q, charge, key);
    AllRqsSame(d.queues, q, d'.queues[q]);
    ConservedSame(d0, d, d');
  }

  lemma NothingLeft(d0: Cfqd, d: Cfqd)
    requires Books(d) && d.active.None? && d.rqQueued == 0 && Conserved(d0, d)
    ensures d.busy == 0 && AllRqs(d.queues) == {}
    ensures d0.dispatched <= d.dispatched
    ensures multiset(d.dispatched[|d0.dispatched|..]) == multiset(AllRqs(d0.queues))
  {
    hide Placed, AllRqs, OnRr, Backed;
    BusyMeansQueued(d);
    assert AllRqs(d.queues) == {};
  }
}
