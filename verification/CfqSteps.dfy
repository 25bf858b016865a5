/** Every CFQ operation keeps the books. */
module CfqSteps {
  import opened Common
  import opened RequestTree
  import opened CfqRequests
  import opened CfqGroups
  import opened CfqQueues
  import opened CfqBooks

  // ---------------------------------------------------------------------------
  // Requests
  // ---------------------------------------------------------------------------

  ghost function Mine(q: nat, p: Pending): set<(nat, Rq)> {
    set r | r in p.sort :: (q, r)
  }

  ghost function Others(qs: Queues, q: nat): set<(nat, Rq)> {
    set x | x in AllRqs(qs) && x.0 != q
  }

  lemma AllSplit(qs: Queues, q: nat, c: Cfqq)
    requires q in qs
    ensures AllRqs(qs) == Others(qs, q) + Mine(q, qs[q].pending)
    ensures AllRqs(qs[q := c]) == Others(qs, q) + Mine(q, c.pending)
    ensures Others(qs, q) !! Mine(q, qs[q].pending) && Others(qs, q) !! Mine(q, c.pending)
  {
    var qs' := qs[q := c];
    forall x ensures x in AllRqs(qs') <==> x in Others(qs, q) + Mine(q, c.pending) {
      if x.0 != q {
        assert x in AllRqs(qs') <==> x in AllRqs(qs);
      }
    }
  }

  lemma MineSize(q: nat, p: Pending)
    requires Tidy(p)
    ensures |Mine(q, p)| == |p.sort|
  {
    hide Syncs, NextOk;
    MineSizeOf(q, p.sort);
    assert Mine(q, p) == set r | r in p.sort :: (q, r);
  }

  lemma {:induction false} MineSizeOf(q: nat, s: seq<Rq>)
    requires Ascending(s)
    ensures |set r | r in s :: (q, r)| == |s|
  {
    if s != [] {
      var t := s[..|s| - 1];
      var x := s[|s| - 1];
      MineSizeOf(q, t);
      assert s == t + [x];
      assert x !in t;
      assert (set r | r in s :: (q, r)) == (set r | r in t :: (q, r)) + {(q, x)};
    }
  }

  /** The total changes by what changes in one queue. */
  lemma TotalChanges(qs: Queues, q: nat, c: Cfqq)
    requires q in qs && Tidy(qs[q].pending) && Tidy(c.pending)
    ensures |AllRqs(qs[q := c])| == |AllRqs(qs)| - |qs[q].pending.sort| + |c.pending.sort|
  {
    hide Tidy, AllRqs, Mine, Others;
    AllSplit(qs, q, c);
    MineSize(q, qs[q].pending);
    MineSize(q, c.pending);
    assert |Others(qs, q) + Mine(q, qs[q].pending)| == |Others(qs, q)| + |Mine(q, qs[q].pending)|;
    assert |Others(qs, q) + Mine(q, c.pending)| == |Others(qs, q)| + |Mine(q, c.pending)|;
  }

  lemma TidyOf(d: Cfqd, q: nat)
    requires Placed(d) && q in d.queues
    ensures Tidy(d.queues[q].pending) && QueueOk(d.queues[q])
  {
    hide TreesOk, GroupsOk, TreeInv, Tidy;
  }

  lemma PendingPlaced(d: Cfqd, q: nat, p: Pending)
    requires Placed(d) && q in d.queues && Tidy(p)
    ensures Placed(SetPending(d, q, p))
    ensures |AllRqs(SetPending(d, q, p).queues)| == |AllRqs(d.queues)| - |d.queues[q].pending.sort| + |p.sort|
    ensures OnRr(SetPending(d, q, p).queues) == OnRr(d.queues)
  {
    hide Placed, Tidy, AllRqs, OnRr;
    TidyOf(d, q);
    PlacedSame(d, q, d.queues[q].(pending := p));
    TotalChanges(d.queues, q, d.queues[q].(pending := p));
    OnRrSame(d.queues, q, d.queues[q].(pending := p));
  }

  lemma PendingRr(d: Cfqd, q: nat, p: Pending)
    requires Placed(d) && q in d.queues && Tidy(p) && RrOk(d.queues, d.busy)
    ensures RrOk(SetPending(d, q, p).queues, d.busy)
  {
    hide Placed, Tidy, OnRr;
    PendingPlaced(d, q, p);
  }

  lemma SizesOf(p: Pending, p': Pending)
    requires Tidy(p) && Tidy(p')
    ensures |Members(p)| == |p.sort| && |Members(p')| == |p'.sort|
  {
    hide Syncs, NextOk, Ascending;
    MembersSize(p.sort);
    MembersSize(p'.sort);
    assert Members(p) == set r | r in p.sort;
    assert Members(p') == set r | r in p'.sort;
  }

  lemma {:induction false} MembersSize(s: seq<Rq>)
    requires Ascending(s)
    ensures |set r | r in s| == |s|
  {
    if s != [] {
      var t := s[..|s| - 1];
      MembersSize(t);
      assert s == t + [s[|s| - 1]];
      assert (set r | r in s) == (set r | r in t) + {s[|s| - 1]};
    }
  }

  /** cfq_dispatch_insert moves one request of the active queue to the dispatch list. */
  lemma DispatchRqKeeps(d: Cfqd, q: nat, rq: Rq)
    requires Books(d) && d.active == Some(q) && q in d.queues && rq in d.queues[q].pending.sort
    ensures Books(DispatchRq(d, q, rq))
  {
    hide Placed, Tidy, AllRqs, OnRr, DispatchInsert;
    var p := d.queues[q].pending;
    var p' := DispatchInsert(p, rq, d.tuning);
    TidyOf(d, q);
    DispatchKeeps(p, rq, d.tuning);
    DispatchShrinks(p, rq, d.tuning);
    PendingPlaced(d, q, p');
    PendingRr(d, q, p');
    PlacedElse(SetPending(d, q, p'), DispatchRq(d, q, rq));
  }

  /** Placement does not depend on the remaining fields. */
  lemma PlacedElse(d: Cfqd, d': Cfqd)
    requires Placed(d) && d'.queues == d.queues && d'.keys == d.keys && d'.trees == d.trees && d'.groups == d.groups && d'.gt == d.gt
    ensures Placed(d')
  {
  }

  lemma EnqueueSizes(p: Pending, rq: Rq, last: int, t: Tuning)
    requires Tidy(p) && rq !in p.sort
    ensures var p' := Enqueue(p, rq, last, t);
            && Tidy(p') && p'.sort != []
            && |p'.sort| == |p.sort| + 1 - if Alias(p.sort, rq.sector).Some? then 1 else 0
  {
    hide Enqueue, Syncs, NextOk;
    var p' := Enqueue(p, rq, last, t);
    EnqueueKeeps(p, rq, last, t);
    SizesOf(p, p');
    AliasFound(p.sort, rq.sector);
    var a := Alias(p.sort, rq.sector);
    if a.Some? {
      OnlyAlias(p.sort, a.value);
      assert WithoutAlias(Members(p), rq.sector) == Members(p) - {a.value};
    } else {
      assert WithoutAlias(Members(p), rq.sector) == Members(p);
    }
    assert rq !in WithoutAlias(Members(p), rq.sector);
    assert rq in Members(p');
  }

  lemma InsertRqKeeps(d: Cfqd, q: nat, rq: Rq, key: int)
    requires Books(d) && q in d.queues && rq !in d.queues[q].pending.sort
    ensures Books(InsertRq(d, q, rq, key))
  {
    hide Placed, Tidy, AllRqs, OnRr, Enqueue, Alias, AddRr;
    var p := d.queues[q].pending;
    var p' := Enqueue(p, rq, d.lastPos, d.tuning);
    TidyOf(d, q);
    EnqueueSizes(p, rq, d.lastPos, d.tuning);
    PendingPlaced(d, q, p');
    PendingRr(d, q, p');
    var d1 := AliasLeaves(SetPending(d, q, p'), q, Alias(p.sort, rq.sector));
    PlacedElse(SetPending(d, q, p'), d1);
    if d1.queues[q].onRR {
      PlacedElse(d1, InsertRq(d, q, rq, key));
    } else {
      AddRrKeeps(d1, q, key);
      var d2 := AddRr(d1, q, key);
      AllRqsSame(d1.queues, q, d2.queues[q]);
      PlacedElse(d2, InsertRq(d, q, rq, key));
    }
  }

  lemma RepositionSizes(p: Pending, rq: Rq, sector: int, last: int, t: Tuning)
    requires Tidy(p) && rq in p.sort && rq.(sector := sector) !in p.sort
    ensures var p' := Reposition(p, rq, sector, last, t);
            && Tidy(p') && p'.sort != []
            && |p'.sort| == |p.sort| - if Alias(Erase(p.sort, rq), sector).Some? then 1 else 0
  {
    hide Reposition, Syncs, NextOk, Erase;
    var p' := Reposition(p, rq, sector, last, t);
    var rest := Erase(p.sort, rq);
    RepositionKeeps(p, rq, sector, last, t);
    SizesOf(p, p');
    EraseKeeps(p.sort, rq);
    EraseMembers(p.sort, rq);
    AliasFound(rest, sector);
    assert Members(p) - {rq} == set r | r in rest;
    var a := Alias(rest, sector);
    if a.Some? {
      OnlyAlias(rest, a.value);
      assert WithoutAlias(Members(p) - {rq}, sector) == Members(p) - {rq} - {a.value};
    } else {
      assert WithoutAlias(Members(p) - {rq}, sector) == Members(p) - {rq};
    }
    assert rq.(sector := sector) in Members(p');
  }

  lemma RepositionRqKeeps(d: Cfqd, q: nat, rq: Rq, sector: int)
    requires Books(d) && q in d.queues && rq in d.queues[q].pending.sort && rq.(sector := sector) !in d.queues[q].pending.sort
    ensures Books(RepositionRq(d, q, rq, sector))
  {
    hide Placed, Tidy, AllRqs, OnRr, Reposition, Alias;
    var p := d.queues[q].pending;
    var p' := Reposition(p, rq, sector, d.lastPos, d.tuning);
    TidyOf(d, q);
    RepositionSizes(p, rq, sector, d.lastPos, d.tuning);
    PendingPlaced(d, q, p');
    PendingRr(d, q, p');
    PlacedElse(SetPending(d, q, p'), RepositionRq(d, q, rq, sector));
  }

  lemma MergeSizes(p: Pending, rq: Rq, next: Rq, t: Tuning)
    requires Tidy(p) && rq in p.sort && next in p.sort && rq != next
    ensures var p' := MergeAway(p, rq, next, t); Tidy(p') && p'.sort != [] && |p'.sort| == |p.sort| - 1
  {
    hide MergeAway, Syncs, NextOk;
    var p' := MergeAway(p, rq, next, t);
    MergeKeeps(p, rq, next, t);
    SizesOf(p, p');
    OnlyAlias(p.sort, rq);
    var rq' := if next.expires < rq.expires then rq.(expires := next.expires) else rq;
    assert rq' !in Members(p) - {rq};
    assert next in Members(p) - {rq} + {rq'} && rq' != next;
    assert rq' in Members(p');
  }

  lemma MergeRqKeeps(d: Cfqd, q: nat, rq: Rq, next: Rq)
    requires Books(d) && q in d.queues && rq in d.queues[q].pending.sort && next in d.queues[q].pending.sort && rq != next
    ensures Books(MergeRq(d, q, rq, next))
  {
    hide Placed, Tidy, AllRqs, OnRr, MergeAway;
    var p := d.queues[q].pending;
    var p' := MergeAway(p, rq, next, d.tuning);
    TidyOf(d, q);
    MergeSizes(p, rq, next, d.tuning);
    PendingPlaced(d, q, p');
    PendingRr(d, q, p');
    PlacedElse(SetPending(d, q, p'), MergeRq(d, q, rq, next));
  }

  // ---------------------------------------------------------------------------
  // Queues come and change
  // ---------------------------------------------------------------------------

  /** The class or the idling of a queue changes; its place does not until it is resorted. */
  function SetFlags(d: Cfqd, q: nat, idleClass: bool, rtClass: bool, idleWindow: bool): Cfqd
    requires q in d.queues
  {
    d.(queues := d.queues[q := d.queues[q].(idleClass := idleClass, rtClass := rtClass, idleWindow := idleWindow)])
  }

  lemma SetFlagsKeeps(d: Cfqd, q: nat, idleClass: bool, rtClass: bool, idleWindow: bool)
    requires Books(d) && q in d.queues
    ensures Books(SetFlags(d, q, idleClass, rtClass, idleWindow))
  {
    hide Placed, Tidy, AllRqs, RrOk, Backed;
    var c := d.queues[q].(idleClass := idleClass, rtClass := rtClass, idleWindow := idleWindow);
    TidyOf(d, q);
    PlacedSame(d, q, c);
    StatusSame(d.queues, d.busy, d.active, q, c);
    AllRqsSame(d.queues, q, c);
  }

  lemma StatusSame(qs: Queues, busy: int, active: Option<nat>, q: nat, c: Cfqq)
    requires RrOk(qs, busy) && Backed(qs, active) && q in qs
    requires c.onRR == qs[q].onRR && c.tree == qs[q].tree && c.pending == qs[q].pending
    ensures RrOk(qs[q := c], busy) && Backed(qs[q := c], active)
  {
    OnRrSame(qs, q, c);
  }

  function NewQueue(d: Cfqd, q: nat, g: nat, sync: bool): Cfqd {
    d.(queues := d.queues[q := Cfqq(false, None, g, None, false, false, sync, false, EMPTY)])
  }

  lemma NewTrees(qs: Queues, keys: map<nat, int>, trees: map<TreeId, Tree>, q: nat, c: Cfqq)
    requires TreesOk(qs, keys, trees) && q !in qs && c.tree.None?
    ensures TreesOk(qs[q := c], keys, trees)
  {
    hide NoDup, ByTime;
    forall t: TreeId ensures TreeOk(qs[q := c], keys, t, TreeAt(trees, t)) {
      assert TreeOk(qs, keys, t, TreeAt(trees, t));
      forall x ensures x in TreeAt(trees, t).nodes <==> Linked(qs[q := c], x, t) {
        assert Linked(qs, x, t) <==> Linked(qs[q := c], x, t);
      }
    }
  }

  lemma NewGroups(qs: Queues, groups: map<nat, Group>, nodes: seq<nat>, q: nat, c: Cfqq)
    requires GroupsOk(qs, groups, nodes) && q !in qs && c.tree.None?
    ensures GroupsOk(qs[q := c], groups, nodes)
  {
    forall g: nat ensures GroupOk(qs[q := c], nodes, g, GroupAt(groups, g)) {
      assert GroupOk(qs, nodes, g, GroupAt(groups, g));
      assert QueuesOf(qs[q := c], g) == QueuesOf(qs, g);
    }
  }

  lemma NewQueueKeeps(d: Cfqd, q: nat, g: nat, sync: bool)
    requires Books(d) && q !in d.queues
    ensures Books(NewQueue(d, q, g, sync))
  {
    hide TreesOk, GroupsOk, TreeInv, QueueOk, AllRqs, RrOk, Backed;
    var c := Cfqq(false, None, g, None, false, false, sync, false, EMPTY);
    NewTrees(d.queues, d.keys, d.trees, q, c);
    NewGroups(d.queues, d.groups, d.gt.nodes, q, c);
    EmptyIsTidy(c);
    QueuesOkSet(d.queues, q, c);
    StatusNew(d.queues, d.busy, d.active, q, c);
  }

  lemma EmptyIsTidy(c: Cfqq)
    requires c.pending == EMPTY && c.tree.None? && c.orig.None?
    ensures QueueOk(c)
  {
  }

  lemma StatusNew(qs: Queues, busy: int, active: Option<nat>, q: nat, c: Cfqq)
    requires RrOk(qs, busy) && Backed(qs, active) && q !in qs
    requires !c.onRR && c.tree.None? && c.pending == EMPTY
    ensures RrOk(qs[q := c], busy) && Backed(qs[q := c], active) && AllRqs(qs[q := c]) == AllRqs(qs)
  {
    assert OnRr(qs[q := c]) == OnRr(qs);
    assert AllRqs(qs[q := c]) == AllRqs(qs);
  }

  // ---------------------------------------------------------------------------
  // Slices
  // ---------------------------------------------------------------------------

  /** The group of a linked queue is on the group tree. */
  lemma GroupOnTree(d: Cfqd, q: nat)
    requires Placed(d) && q in d.queues && d.queues[q].tree.Some?
    ensures d.queues[q].group in d.gt.nodes
  {
    hide TreesOk, TreeInv, QueuesOk;
    var g := d.queues[q].group;
    assert GroupOk(d.queues, d.gt.nodes, g, GroupAt(d.groups, g));
    assert q in QueuesOf(d.queues, g);
  }

  lemma ServePlaced(d: Cfqd, q: nat, charge: nat)
    requires Placed(d) && q in d.queues && d.queues[q].tree.Some?
    ensures Placed(d.(gt := Serve(d.gt, d.queues[q].group, charge)))
  {
    hide TreesOk, TreeInv, QueuesOk, Serve, QueuesOf;
    GroupOnTree(d, q);
    ServeKeeps(d.gt, d.queues[q].group, charge);
    var d' := d.(gt := Serve(d.gt, d.queues[q].group, charge));
    forall g: nat ensures GroupOk(d'.queues, d'.gt.nodes, g, GroupAt(d'.groups, g)) {
      assert GroupOk(d.queues, d.gt.nodes, g, GroupAt(d.groups, g));
    }
  }

  lemma ActivePlaced(d: Cfqd, a: Option<nat>, active: Option<nat>)
    requires Placed(d)
    ensures Placed(d.(active := active, gt := d.gt.(active := a)))
  {
    hide TreesOk, GroupsOk, QueuesOk;
  }

  /** After its slice a queue without requests is off the list, and any other is back on it. */
  lemma ExpiredQueue(d: Cfqd, q: nat, charge: nat, key: int)
    requires Books(d) && d.active == Some(q)
    ensures var d' := SliceExpired(d, q, charge, key);
            && Placed(d') && RrOk(d'.queues, d'.busy)
            && q in d'.queues && d'.queues == d.queues[q := d'.queues[q]]
            && d'.queues[q].pending == d.queues[q].pending
            && (d'.queues[q].onRR <==> d.queues[q].pending.sort != [])
            && d'.rqQueued == d.rqQueued && d'.active.None? && d'.tuning == d.tuning && d'.dispatched == d.dispatched
            && d'.busy == d.busy - if d.queues[q].pending.sort == [] then 1 else 0
  {
    hide Placed, AllRqs, OnRr, Serve, DelRr, ServiceTreeAdd;
    var c := d.queues[q];
    ServePlaced(d, q, charge);
    var d1 := d.(gt := Serve(d.gt, c.group, charge));
    if c.pending.sort == [] {
      DelRrKeeps(d1, q);
      DelRrBusy(d1, q);
      var d2 := DelRr(d1, q);
      ActivePlaced(d2, ClearActive(d2, q).gt.active, ClearActive(d2, q).active);
    } else {
      ServiceTreeAddKeeps(d1, q, key, false);
      var d3 := ServiceTreeAdd(d1, q, key, false);
      OnRrSame(d.queues, q, d3.queues[q]);
      ActivePlaced(d3, ClearActive(d3, q).gt.active, ClearActive(d3, q).active);
    }
  }

  lemma DelRrBusy(d: Cfqd, q: nat)
    requires q in d.queues
    ensures DelRr(d, q).busy == d.busy - 1
  {
    hide GroupDel, TreesWithout;
    var c := d.queues[q];
    GroupOpsSame(d.(queues := d.queues[q := c.(onRR := false, tree := None)], trees := TreesWithout(d.trees, c.tree, q)), c.group);
  }

  lemma SliceExpiredKeeps(d: Cfqd, q: nat, charge: nat, key: int)
    requires Books(d) && d.active == Some(q)
    ensures Books(SliceExpired(d, q, charge, key)) && SliceExpired(d, q, charge, key).active.None?
  {
    hide Placed, AllRqs, OnRr, SliceExpired;
    ExpiredQueue(d, q, charge, key);
    AllRqsSame(d.queues, q, SliceExpired(d, q, charge, key).queues[q]);
  }

  lemma ExpireActiveKeeps(d: Cfqd, charge: nat, key: int)
    requires Books(d)
    ensures Books(ExpireActive(d, charge, key)) && ExpireActive(d, charge, key).active.None?
    ensures ExpireActive(d, charge, key).rqQueued == d.rqQueued
    ensures AllRqs(ExpireActive(d, charge, key).queues) == AllRqs(d.queues)
    ensures ExpireActive(d, charge, key).dispatched == d.dispatched && ExpireActive(d, charge, key).tuning == d.tuning
  {
    hide Placed, AllRqs, OnRr, SliceExpired;
    if d.active.Some? {
      SliceExpiredKeeps(d, d.active.value, charge, key);
      ExpiredQueue(d, d.active.value, charge, key);
      AllRqsSame(d.queues, d.active.value, SliceExpired(d, d.active.value, charge, key).queues[d.active.value]);
    }
  }
}
