/** struct cfq_data as its functions update it, in place, against the functions on values. */
module CfqCode {
  import opened Common
  import opened RequestTree
  import opened CfqRequests
  import opened CfqGroups
  import opened CfqQueues
  import opened CfqBooks
  import opened CfqSteps
  import opened CfqService
  import opened CfqForced
  import opened CfqRuns

  class CfqData {
    var queues: map<nat, Cfqq>
    var keys: map<nat, int>
    var trees: map<TreeId, Tree>
    var groups: map<nat, Group>
    var gt: GroupTree
    var busy: int
    var rqQueued: int
    var active: Option<nat>
    var isolation: bool
    var lastPos: int
    var tuning: Tuning
    var dispatched: seq<(nat, Rq)>

    /** cfq_init_queue */
    constructor (weight: map<nat, nat>, t: Tuning)
      ensures View() == Init(weight, t) && Books(View())
    {
      var d := Init(weight, t);
      queues, keys, trees, groups, gt, busy, rqQueued := d.queues, d.keys, d.trees, d.groups, d.gt, d.busy, d.rqQueued;
      active, isolation, lastPos, tuning, dispatched := d.active, d.isolation, d.lastPos, d.tuning, d.dispatched;
      InitKeeps(weight, t);
    }

    function View(): Cfqd
      reads this
    {
      Cfqd(queues, keys, trees, groups, gt, busy, rqQueued, active, isolation, lastPos, tuning, dispatched)
    }

    /** The walk down a tree ordered by key, to the place behind every node that is not later. */
    static method FindPlace(nodes: seq<nat>, vt: map<nat, int>, v: int) returns (i: nat)
      ensures i == Place(nodes, vt, v)
    {
      i := 0;
      while i < |nodes| && Vt(vt, nodes[i]) <= v
        invariant i <= |nodes| && Place(nodes, vt, v) == i + Place(nodes[i..], vt, v)
      {
        assert nodes[i..][1..] == nodes[i + 1..];
        i := i + 1;
      }
    }

    /** __cfq_group_service_tree_add */
    method LinkGroup(g: nat)
      modifies `gt
      ensures gt == Link(old(gt), g)
    {
      var i := FindPlace(gt.nodes, gt.vt, Vt(gt.vt, g));
      if i == 0 {
        gt := gt.(left := Some(g));
      }
      gt := gt.(nodes := gt.nodes[..i] + [g] + gt.nodes[i..]);
    }

    /** cfq_group_service_tree_add */
    method AddToGroup(g: nat)
      modifies `groups, `gt
      ensures groups == old(groups)[g := Group(true, GroupAt(old(groups), g).nrCfqq + 1)]
      ensures gt == if GroupAt(old(groups), g).onSt then old(gt) else AddGroup(old(gt), g)
    {
      hide AddGroup;
      var r := GroupAt(groups, g);
      groups := groups[g := r.(nrCfqq := r.nrCfqq + 1)];
      if r.onSt {
        return;
      }
      LinkNewGroup(g);
      groups := groups[g := Group(true, r.nrCfqq + 1)];
    }

    /** A group that was off the tree starts behind the last one. */
    method LinkNewGroup(g: nat)
      modifies `gt
      ensures gt == AddGroup(old(gt), g)
    {
      hide Link;
      var v := if gt.nodes != [] then Vt(gt.vt, gt.nodes[|gt.nodes| - 1]) + IDLE_DELAY else gt.minVt;
      gt := gt.(vt := gt.vt[g := v]);
      LinkGroup(g);
    }

    /** cfq_group_service_tree_del */
    method DelFromGroup(g: nat)
      modifies `groups, `gt
      ensures groups == old(groups)[g := GroupLess(GroupAt(old(groups), g))]
      ensures gt == GroupTreeLess(old(gt), GroupAt(old(groups), g), g)
    {
      hide Erase;
      var r := GroupAt(groups, g);
      if gt.active == Some(g) {
        gt := gt.(active := None);
      }
      groups := groups[g := r.(nrCfqq := r.nrCfqq - 1)];
      if r.nrCfqq - 1 != 0 {
        return;
      }
      groups := groups[g := Group(false, 0)];
      gt := Unlink(gt, g);
    }

    /** cfq_rb_erase of a queue that is on a service tree. */
    method Unlinked(q: nat, t: Option<TreeId>)
      modifies `trees
      ensures trees == TreesWithout(old(trees), t, q)
    {
      if t.Some? {
        trees := trees[t.value := TreeUnlink(TreeAt(trees, t.value), q)];
      }
    }

    /** The insertion of cfq_service_tree_add. */
    method LinkQueue(q: nat, t: TreeId)
      modifies `trees
      ensures trees == old(trees)[t := TreeLink(TreeAt(old(trees), t), keys, q)]
    {
      var tree := TreeAt(trees, t);
      var i := FindPlace(tree.nodes, keys, Vt(keys, q));
      trees := trees[t := Tree(tree.nodes[..i] + [q] + tree.nodes[i..], if i == 0 then Some(q) else tree.left, tree.count + 1)];
    }

    /** Off the tree it is on, if any, and onto tree t. */
    method MoveQueue(q: nat, c: Cfqq, t: TreeId, key: int)
      requires q in queues
      modifies `queues, `keys, `trees
      ensures View() == Relinked(old(View()), q, old(queues)[q].tree, c, t, key)
    {
      hide TreeLink, TreesWithout, TreeAt;
      Unlinked(q, queues[q].tree);
      keys := keys[q := key];
      LinkQueue(q, t);
      queues := queues[q := c.(tree := Some(t))];
    }

    /** cfq_service_tree_add keeps every queue, tree and group in its place. */
    method AddToServiceTree(q: nat, key: int, front: bool)
      requires q in queues
      modifies `queues, `keys, `trees, `groups, `gt
      ensures View() == ServiceTreeAdd(old(View()), q, key, front)
    {
      hide GroupAdd, GroupDel, Relinked, KindOf, Regrouped;
      var c := queues[q];
      var c1 := Regrouped(c, isolation);
      var changed, isNew := c1 != c, c.tree.None?;
      if changed && !isNew {
        LeaveGroup(c.group);
      }
      var t := TreeId(c1.group, KindOf(c1));
      if !isNew && key == Vt(keys, q) && c.tree == Some(t) {
        return;
      }
      MoveQueue(q, c1, t, key);
      if (front || !isNew) && !changed {
        return;
      }
      JoinGroup(c1.group);
    }

    method JoinGroup(g: nat)
      modifies `groups, `gt
      ensures View() == GroupAdd(old(View()), g)
    {
      hide AddGroup, GroupAt;
      AddToGroup(g);
    }

    method LeaveGroup(g: nat)
      modifies `groups, `gt
      ensures View() == GroupDel(old(View()), g)
    {
      hide GroupLess, GroupTreeLess, GroupAt;
      DelFromGroup(g);
    }

    /** cfq_resort_rr_list */
    method ResortQueue(q: nat, key: int)
      requires q in queues
      modifies `queues, `keys, `trees, `groups, `gt
      ensures View() == Resort(old(View()), q, key)
    {
      hide ServiceTreeAdd;
      if queues[q].onRR {
        AddToServiceTree(q, key, false);
      }
    }

    /** cfq_add_cfqq_rr */
    method AddQueueRr(q: nat, key: int)
      requires q in queues
      modifies this
      ensures View() == AddRr(old(View()), q, key)
    {
      hide Resort;
      queues := queues[q := queues[q].(onRR := true)];
      busy := busy + 1;
      ResortQueue(q, key);
    }

    /** cfq_del_cfqq_rr */
    method DelQueueRr(q: nat)
      requires q in queues
      modifies this
      ensures View() == DelRr(old(View()), q)
    {
      hide GroupLess, GroupTreeLess, GroupAt, TreesWithout;
      var c := queues[q];
      queues := queues[q := c.(onRR := false, tree := None)];
      Unlinked(q, c.tree);
      DelFromGroup(c.group);
      busy := busy - 1;
    }

    /** cfq_dispatch_insert */
    method DispatchInsertRq(q: nat, rq: Rq)
      requires q in queues
      modifies `queues, `rqQueued, `dispatched
      ensures View() == DispatchRq(old(View()), q, rq)
    {
      hide DispatchInsert;
      queues := queues[q := queues[q].(pending := DispatchInsert(queues[q].pending, rq, tuning))];
      rqQueued := rqQueued - 1;
      dispatched := dispatched + [(q, rq)];
    }

    /** cfq_add_rq_rb and the FIFO of cfq_insert_request */
    method EnqueueRq(q: nat, rq: Rq)
      requires q in queues
      modifies `queues, `rqQueued, `dispatched
      ensures q in queues
      ensures var p := old(queues)[q].pending;
              View() == AliasLeaves(SetPending(old(View()), q, Enqueue(p, rq, lastPos, tuning)), q, Alias(p.sort, rq.sector))
    {
      hide Enqueue, Alias;
      var p := queues[q].pending;
      var alias := Alias(p.sort, rq.sector);
      queues := queues[q := queues[q].(pending := Enqueue(p, rq, lastPos, tuning))];
      if alias.Some? {
        rqQueued := rqQueued - 1;
        dispatched := dispatched + [(q, alias.value)];
      }
    }

    /** cfq_insert_request keeps the books. */
    method InsertRequest(q: nat, rq: Rq, key: int)
      requires Books(View()) && q in queues && rq !in queues[q].pending.sort
      modifies this
      ensures Books(View()) && q in old(queues) && View() == InsertRq(old(View()), q, rq, key)
    {
      hide Books, AddRr, SetPending, AliasLeaves, Enqueue, Alias;
      InsertRqKeeps(View(), q, rq, key);
      EnqueueRq(q, rq);
      if !queues[q].onRR {
        AddQueueRr(q, key);
      }
      rqQueued := rqQueued + 1;
    }

    /** cfq_group_served: the charge, and the group back in its place. */
    method GroupServed(g: nat, charge: nat)
      modifies `gt
      ensures gt == Serve(old(gt), g, charge)
    {
      hide Link, Unlink, ScaleSlice;
      var w := Weight(gt, g);
      gt := Unlink(gt, g);
      gt := gt.(vt := gt.vt[g := Vt(gt.vt, g) + ScaleSlice(charge, w)]);
      LinkGroup(g);
    }

    /** The tail of __cfq_slice_expired */
    method Deactivate(q: nat)
      requires q in queues
      modifies `active, `gt
      ensures View() == ClearActive(old(View()), q)
    {
      if active == Some(q) {
        active := None;
      }
      if gt.active == Some(queues[q].group) {
        gt := gt.(active := None);
      }
    }

    /** __cfq_slice_expired of the active queue keeps the books. */
    method ExpireQueue(q: nat, charge: nat, key: int)
      requires Books(View()) && active == Some(q)
      modifies this
      ensures q in old(queues) && View() == SliceExpired(old(View()), q, charge, key)
      ensures Books(View()) && active.None?
    {
      hide Books, Serve, DelRr, Resort, ClearActive;
      ActiveKnown(View(), q);
      SliceExpiredKeeps(View(), q, charge, key);
      GroupServed(queues[q].group, charge);
      if queues[q].onRR && queues[q].pending.sort == [] {
        DelRrKnows(View(), q);
        DelQueueRr(q);
      }
      ResortKnows(View(), q, key);
      ResortQueue(q, key);
      Deactivate(q);
    }

    /** cfq_slice_expired */
    method ExpireActiveQueue(charge: nat, key: int)
      requires Books(View())
      modifies this
      ensures View() == ExpireActive(old(View()), charge, key)
      ensures Books(View()) && active.None?
    {
      hide Books, SliceExpired;
      if active.Some? {
        ActiveKnown(View(), active.value);
        ExpireQueue(active.value, charge, key);
      }
    }

    /** choose_service_tree */
    method ChooseTree(g: nat, running: nat, over: bool) returns (kind: nat)
      requires Books(View()) && g in gt.nodes && running <= SYNC
      ensures kind == ChooseKind(View(), g, running, over)
      ensures RightKind(View(), g, running, over, kind)
    {
      hide Count, ChooseWl, Books, RightKind;
      ChooseKindRight(View(), g, running, over);
      var prio := RT;
      if BusyQueues(View(), g, RT) == 0 {
        prio := BE;
        if BusyQueues(View(), g, BE) == 0 {
          return IDLE;
        }
      }
      if Count(View(), g, prio + running) != 0 && !over {
        return prio + running;
      }
      var best := ChooseWorkload(View(), g, prio);
      return prio + best;
    }

    /** cfq_choose_cfqg and cfq_get_next_queue: with requests queued, a queue that has some. */
    method ChooseNew(running: nat, over: bool) returns (q: Option<nat>)
      requires Books(View()) && active.None? && rqQueued > 0 && running <= SYNC
      modifies `gt, `active
      ensures (View(), q) == SelectNew(old(View()), running, over)
      ensures Books(View()) && q.Some? && q.value in queues && queues[q.value].pending.sort != []
      ensures InTurn(View(), running, over, q.value)
    {
      hide Books, NextGroup, ChooseKind, NextQueue, InTurn, RightKind;
      SelectNewFinds(View(), running, over);
      SelectNewInTurn(View(), running, over);
      GroupTreeNotEmpty(View());
      NextGroupOf(View());
      NextGroupBooks(View());
      var (gt1, g) := NextGroup(gt);
      gt := gt1;
      var kind := ChooseTree(g.value, running, over);
      q := NextQueue(View(), g.value, kind);
      active := q;
    }

    /** cfq_select_queue, with v for the outcome of its tests on the active queue. */
    method Select(v: Verdict, charge: nat, key: int, running: nat, over: bool) returns (q: Option<nat>)
      requires Books(View()) && busy > 0 && Allowed(View(), v) && running <= SYNC
      modifies this
      ensures (View(), q) == SelectQueue(old(View()), v, charge, key, running, over)
      ensures Books(View()) && (q.Some? ==> q.value in queues && queues[q.value].pending.sort != [])
      ensures old(Choosing(View(), v)) ==> q.Some? && InTurn(View(), running, over, q.value)
    {
      hide Books, SelectNew, ExpireActive, Allowed, InTurn;
      SelectQueueKeeps(View(), v, charge, key, running, over);
      if active.None? {
        BusyMeansQueued(View());
        q := ChooseNew(running, over);
      } else if rqQueued == 0 {
        q := None;
      } else {
        RqsNotNegative(View());
        match v
        case Keep => q := active;
        case Wait => q := None;
        case Expire =>
          ExpireActiveKeeps(View(), charge, key);
          ExpireActiveQueue(charge, key);
          q := ChooseNew(running, over);
        case Cooperate(c) =>
          ExpireActiveQueue(charge, key);
          active := Some(c);
          q := active;
      }
    }

    /** cfq_dispatch_requests without force keeps the books. */
    method DispatchRequests(v: Verdict, charge: nat, key: int, running: nat, over: bool, oldest: bool, may: bool)
      requires Books(View()) && busy > 0 && Allowed(View(), v) && running <= SYNC
      modifies this
      ensures Books(View()) && View() == DispatchOne(old(View()), v, charge, key, running, over, oldest, may)
    {
      hide Books, SelectQueue, Allowed, DispatchRq, Chosen;
      DispatchOneKeeps(View(), v, charge, key, running, over, oldest, may);
      var q := Select(v, charge, key, running, over);
      if q.Some? && may {
        ChosenIsPending(View(), q.value, oldest);
        DispatchInsertRq(q.value, Chosen(queues[q.value].pending, oldest).value);
      }
    }

    /** The loop of __cfq_forced_dispatch_cfqq, in place. */
    method DrainQueue(q: nat, ghost start: Cfqd) returns (n: nat)
      requires Books(View()) && active == Some(q) && Conserved(start, View())
      modifies this
      ensures Books(View()) && active == Some(q) && Conserved(start, View()) && busy == old(busy)
      ensures q in queues && queues[q].pending.sort == [] && queues[q].pending.fifo == []
      ensures n == old(rqQueued) - rqQueued
    {
      hide Books, Conserved, DispatchRq;
      ActiveKnown(View(), q);
      n := 0;
      while queues[q].pending.next.Some?
        invariant q in queues && Books(View()) && active == Some(q) && Conserved(start, View()) && busy == old(busy)
        invariant n == old(rqQueued) - rqQueued
        decreases rqQueued
      {
        ghost var d := View();
        var rq := queues[q].pending.next.value;
        NextIsPending(d, q);
        DispatchRqKeeps(d, q, rq);
        DispatchConserves(start, d, q, rq);
        DispatchRest(d, q, rq);
        DispatchInsertRq(q, rq);
        RqsNotNegative(View());
        n := n + 1;
      }
      NextIsPending(View(), q);
    }

    /** cfq_get_next_queue_forced */
    method NextForcedQueue() returns (q: Option<nat>)
      modifies `gt
      ensures (View(), q) == NextForced(old(View()))
    {
      hide NextGroup, TreeFirst;
      q := None;
      if rqQueued == 0 {
        return;
      }
      var (gt1, g) := NextGroup(gt);
      gt := gt1;
      if g.None? {
        return;
      }
      q := FirstOfGroup(g.value);
    }

    /** for_each_cfqg_st */
    method FirstOfGroup(g: nat) returns (q: Option<nat>)
      ensures q == FirstQueue(View(), g, 0)
    {
      hide TreeFirst;
      var k := 0;
      while k < 7
        invariant k <= 7 && FirstQueue(View(), g, 0) == FirstQueue(View(), g, k)
      {
        q := TreeFirst(TreeAt(trees, TreeId(g, k)));
        if q.Some? {
          return;
        }
        k := k + 1;
      }
      q := None;
    }

    /** cfq_forced_dispatch terminates, moves every request to the dispatch list exactly once, and
        leaves no queue busy, as its BUG_ON demands.  `clock` gives the charge and the key of each
        expiry. */
    method ForcedDispatch(clock: (Cfqd, nat) -> (nat, int)) returns (n: nat)
      requires Books(View())
      modifies this
      ensures Books(View()) && busy == 0 && rqQueued == 0 && AllRqs(queues) == {}
      ensures old(dispatched) <= dispatched
      ensures multiset(dispatched[|old(dispatched)|..]) == multiset(AllRqs(old(queues)))
      ensures n == old(rqQueued)
    {
      hide Books, AllRqs, Conserved, NextForced, SliceExpired, ExpireActive;
      ghost var d0 := View();
      var now := clock(View(), 0);
      ExpireActiveKeeps(d0, now.0, now.1);
      ConservedStart(d0);
      ExpireActiveQueue(now.0, now.1);
      n := 0;
      ConservedSame(d0, d0, View());
      while true
        invariant Books(View()) && active.None? && Conserved(d0, View())
        invariant n == d0.rqQueued - rqQueued
        decreases busy
      {
        ghost var d := View();
        NextForcedFinds(d);
        var next := NextForcedQueue();
        ConservedSame(d0, d, View());
        if next.None? {
          break;
        }
        SetActiveBooks(View(), next);
        ConservedSame(d0, View(), SetActive(View(), next));
        active := next;
        var k := DrainQueue(next.value, d0);
        n := n + k;
        var later := clock(View(), next.value);
        EmptyExpires(d0, View(), next.value, later.0, later.1);
        ExpireQueue(next.value, later.0, later.1);
      }
      NothingLeft(d0, View());
    }
  }

  lemma ActiveKnown(d: Cfqd, q: nat)
    requires Books(d) && d.active == Some(q)
    ensures q in d.queues
  {
    hide Placed, RrOk, AllRqs;
  }

  lemma DelRrKnows(d: Cfqd, q: nat)
    requires q in d.queues
    ensures q in DelRr(d, q).queues
  {
    hide TreesWithout, GroupTreeLess, GroupLess;
  }

  lemma ResortKnows(d: Cfqd, q: nat, key: int)
    requires q in d.queues
    ensures q in Resort(d, q, key).queues
  {
    hide TreeLink, TreesWithout, GroupTreeLess, GroupLess, KindOf, Regrouped, AddGroup;
  }
}
