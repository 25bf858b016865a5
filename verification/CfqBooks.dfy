/** CFQ's redundant counters agree with the queues, in every state. */
module CfqBooks {
  import opened Common
  import opened RequestTree
  import opened CfqRequests
  import opened CfqGroups
  import opened CfqQueues

  type Queues = map<nat, Cfqq>

  // ---------------------------------------------------------------------------
  // Service trees
  // ---------------------------------------------------------------------------

  ghost predicate Linked(qs: Queues, q: nat, t: TreeId) {
    q in qs && qs[q].tree == Some(t)
  }

  /** A tree holds the queues linked to it, once each and by key; its count and leftmost cache
      are right. */
  ghost predicate TreeOk(qs: Queues, keys: map<nat, int>, t: TreeId, tree: Tree) {
    && NoDup(tree.nodes)
    && (forall q :: q in tree.nodes <==> Linked(qs, q, t))
    && ByTime(tree.nodes, keys)
    && LeftOk(tree.nodes, tree.left)
    && tree.count == |tree.nodes|
  }

  ghost predicate TreesOk(qs: Queues, keys: map<nat, int>, trees: map<TreeId, Tree>) {
    forall t: TreeId :: TreeOk(qs, keys, t, TreeAt(trees, t))
  }

  lemma TreeUntouched(qs: Queues, keys: map<nat, int>, t: TreeId, tree: Tree, q: nat, c: Cfqq, key: int)
    requires TreeOk(qs, keys, t, tree) && q in qs
    requires qs[q].tree != Some(t) && c.tree != Some(t)
    ensures TreeOk(qs[q := c], keys[q := key], t, tree)
  {
    hide NoDup;
    assert q !in tree.nodes;
    Retimed(tree.nodes, keys, q, key, 0);
    forall x ensures x in tree.nodes <==> Linked(qs[q := c], x, t) {
      assert Linked(qs, x, t) <==> Linked(qs[q := c], x, t);
    }
  }

  lemma TreeJoined(qs: Queues, keys: map<nat, int>, t: TreeId, tree: Tree, q: nat, c: Cfqq, key: int)
    requires TreeOk(qs, keys, t, tree) && q in qs
    requires qs[q].tree != Some(t) && c.tree == Some(t)
    ensures TreeOk(qs[q := c], keys[q := key], t, TreeLink(tree, keys[q := key], q))
  {
    hide NoDup, ByTime, Vt;
    assert q !in tree.nodes;
    var keys' := keys[q := key];
    Retimed(tree.nodes, keys, q, key, 0);
    var i := Place(tree.nodes, keys', Vt(keys', q));
    InsertOnce(tree.nodes, i, q);
    LinkByTime(tree.nodes, keys', q, i);
    forall x ensures x in TreeLink(tree, keys', q).nodes <==> Linked(qs[q := c], x, t) {
      assert x != q ==> (Linked(qs, x, t) <==> Linked(qs[q := c], x, t));
    }
  }

  lemma TreeLeft(qs: Queues, keys: map<nat, int>, t: TreeId, tree: Tree, q: nat, c: Cfqq)
    requires TreeOk(qs, keys, t, tree) && q in qs
    requires qs[q].tree == Some(t) && c.tree != Some(t)
    ensures TreeOk(qs[q := c], keys, t, TreeUnlink(tree, q))
  {
    hide NoDup, ByTime, Erase;
    assert q in tree.nodes by { assert Linked(qs, q, t); }
    EraseOnce(tree.nodes, q);
    EraseByTime(tree.nodes, keys, q);
    FirstStays(tree.nodes, q);
    EraseHas(tree.nodes, q);
    forall x ensures x in TreeUnlink(tree, q).nodes <==> Linked(qs[q := c], x, t) {
      assert x != q ==> (Linked(qs, x, t) <==> Linked(qs[q := c], x, t));
    }
  }

  /** A queue leaves its tree, if it is on one. */
  lemma TreesLeft(qs: Queues, keys: map<nat, int>, trees: map<TreeId, Tree>, q: nat, c: Cfqq)
    requires TreesOk(qs, keys, trees) && q in qs && c.tree.None?
    ensures TreesOk(qs[q := c], keys, TreesWithout(trees, qs[q].tree, q))
  {
    hide TreeOk, TreeUnlink;
    var trees' := TreesWithout(trees, qs[q].tree, q);
    forall t: TreeId ensures TreeOk(qs[q := c], keys, t, TreeAt(trees', t)) {
      assert TreeOk(qs, keys, t, TreeAt(trees, t));
      if qs[q].tree == Some(t) {
        TreeLeft(qs, keys, t, TreeAt(trees, t), q, c);
      } else {
        TreeUntouchedKey(qs, keys, t, TreeAt(trees, t), q, c);
      }
    }
  }

  /** A queue joins a tree with a new key. */
  lemma TreesJoined(qs: Queues, keys: map<nat, int>, trees: map<TreeId, Tree>, q: nat, c: Cfqq, t: TreeId, key: int)
    requires TreesOk(qs, keys, trees) && q in qs && qs[q].tree.None? && c.tree == Some(t)
    ensures TreesOk(qs[q := c], keys[q := key], trees[t := TreeLink(TreeAt(trees, t), keys[q := key], q)])
  {
    hide TreeOk, TreeLink;
    var trees' := trees[t := TreeLink(TreeAt(trees, t), keys[q := key], q)];
    forall s: TreeId ensures TreeOk(qs[q := c], keys[q := key], s, TreeAt(trees', s)) {
      assert TreeOk(qs, keys, s, TreeAt(trees, s));
      if s == t {
        TreeJoined(qs, keys, t, TreeAt(trees, t), q, c, key);
      } else {
        TreeUntouched(qs, keys, s, TreeAt(trees, s), q, c, key);
      }
    }
  }

  lemma TreeUntouchedKey(qs: Queues, keys: map<nat, int>, t: TreeId, tree: Tree, q: nat, c: Cfqq)
    requires TreeOk(qs, keys, t, tree) && q in qs
    requires qs[q].tree == Some(t) <==> c.tree == Some(t)
    ensures TreeOk(qs[q := c], keys, t, tree)
  {
    hide NoDup, ByTime;
    forall x ensures x in tree.nodes <==> Linked(qs[q := c], x, t) {
      assert Linked(qs, x, t) <==> Linked(qs[q := c], x, t);
    }
  }

  /** A change that leaves the queue's tree alone. */
  lemma TreesSame(qs: Queues, keys: map<nat, int>, trees: map<TreeId, Tree>, q: nat, c: Cfqq)
    requires TreesOk(qs, keys, trees) && q in qs && c.tree == qs[q].tree
    ensures TreesOk(qs[q := c], keys, trees)
  {
    hide TreeOk;
    forall t: TreeId ensures TreeOk(qs[q := c], keys, t, TreeAt(trees, t)) {
      assert TreeOk(qs, keys, t, TreeAt(trees, t));
      TreeUntouchedKey(qs, keys, t, TreeAt(trees, t), q, c);
    }
  }

  // ---------------------------------------------------------------------------
  // Groups
  // ---------------------------------------------------------------------------

  /** The linked queues of a group. */
  ghost function QueuesOf(qs: Queues, g: nat): set<nat> {
    set q | q in qs && qs[q].tree.Some? && qs[q].group == g
  }

  /** nr_cfqq counts the group's queues, and the group is on the tree while there are any. */
  ghost predicate GroupOk(qs: Queues, nodes: seq<nat>, g: nat, r: Group) {
    && r.nrCfqq == |QueuesOf(qs, g)|
    && (r.onSt <==> r.nrCfqq > 0)
    && (g in nodes <==> r.onSt)
  }

  ghost predicate GroupsOk(qs: Queues, groups: map<nat, Group>, nodes: seq<nat>) {
    forall g: nat :: GroupOk(qs, nodes, g, GroupAt(groups, g))
  }

  lemma QueuesOfSame(qs: Queues, q: nat, c: Cfqq, g: nat)
    requires q in qs
    requires (qs[q].tree.Some? && qs[q].group == g) <==> (c.tree.Some? && c.group == g)
    ensures QueuesOf(qs[q := c], g) == QueuesOf(qs, g)
  {
  }

  lemma QueuesOfMore(qs: Queues, q: nat, c: Cfqq, g: nat)
    requires q in qs && !(qs[q].tree.Some? && qs[q].group == g) && c.tree.Some? && c.group == g
    ensures |QueuesOf(qs[q := c], g)| == |QueuesOf(qs, g)| + 1
  {
    assert QueuesOf(qs[q := c], g) == QueuesOf(qs, g) + {q};
  }

  lemma QueuesOfLess(qs: Queues, q: nat, c: Cfqq, g: nat)
    requires q in qs && qs[q].tree.Some? && qs[q].group == g && !(c.tree.Some? && c.group == g)
    ensures |QueuesOf(qs[q := c], g)| == |QueuesOf(qs, g)| - 1
  {
    assert QueuesOf(qs, g) == QueuesOf(qs[q := c], g) + {q};
  }

  /** A change that leaves the queue in its group. */
  lemma GroupsSame(qs: Queues, groups: map<nat, Group>, nodes: seq<nat>, q: nat, c: Cfqq)
    requires GroupsOk(qs, groups, nodes) && q in qs
    requires c.tree.Some? == qs[q].tree.Some? && (c.tree.Some? ==> c.group == qs[q].group)
    ensures GroupsOk(qs[q := c], groups, nodes)
  {
    hide QueuesOf;
    forall g: nat ensures GroupOk(qs[q := c], nodes, g, GroupAt(groups, g)) {
      assert GroupOk(qs, nodes, g, GroupAt(groups, g));
      QueuesOfSame(qs, q, c, g);
    }
  }

  /** cfq_group_service_tree_add */
  lemma GroupsJoined(d: Cfqd, qs: Queues, q: nat, c: Cfqq)
    requires GroupsOk(qs, d.groups, d.gt.nodes) && TreeInv(d.gt)
    requires q in qs && qs[q].tree.None? && c.tree.Some?
    ensures GroupsOk(qs[q := c], GroupAdd(d, c.group).groups, GroupAdd(d, c.group).gt.nodes)
    ensures TreeInv(GroupAdd(d, c.group).gt)
  {
    hide QueuesOf, TreeInv, AddGroup;
    assert GroupOk(qs, d.gt.nodes, c.group, GroupAt(d.groups, c.group));
    if !GroupAt(d.groups, c.group).onSt {
      AddGroupKeeps(d.gt, c.group);
    }
    var d' := GroupAdd(d, c.group);
    forall g: nat ensures GroupOk(qs[q := c], d'.gt.nodes, g, GroupAt(d'.groups, g)) {
      assert GroupOk(qs, d.gt.nodes, g, GroupAt(d.groups, g));
      if g == c.group {
        QueuesOfMore(qs, q, c, g);
      } else {
        QueuesOfSame(qs, q, c, g);
      }
    }
  }

  /** cfq_group_service_tree_del; its BUG_ON cannot fire. */
  lemma GroupsLeft(d: Cfqd, qs: Queues, q: nat, c: Cfqq)
    requires GroupsOk(qs, d.groups, d.gt.nodes) && TreeInv(d.gt)
    requires q in qs && qs[q].tree.Some? && c.tree.None?
    ensures GroupAt(d.groups, qs[q].group).nrCfqq >= 1
    ensures GroupsOk(qs[q := c], GroupDel(d, qs[q].group).groups, GroupDel(d, qs[q].group).gt.nodes)
    ensures TreeInv(GroupDel(d, qs[q].group).gt)
  {
    hide QueuesOf, NoDup, ByTime, DelGroup;
    var g0 := qs[q].group;
    assert GroupOk(qs, d.gt.nodes, g0, GroupAt(d.groups, g0));
    QueuesOfLess(qs, q, c, g0);
    DelGroupKeeps(d.gt, g0);
    var d' := GroupDel(d, g0);
    forall g: nat ensures GroupOk(qs[q := c], d'.gt.nodes, g, GroupAt(d'.groups, g)) {
      assert GroupOk(qs, d.gt.nodes, g, GroupAt(d.groups, g));
      if g != g0 {
        QueuesOfSame(qs, q, c, g);
      }
    }
  }

  // ---------------------------------------------------------------------------
  // The invariant
  // ---------------------------------------------------------------------------

  ghost predicate QueueOk(c: Cfqq) {
    && Tidy(c.pending)
    && (c.tree.Some? ==> c.tree.value.group == c.group && c.tree.value.kind <= IDLE)
    && (c.orig.Some? ==> c.group == ROOT && c.orig.value != ROOT)
  }

  ghost predicate QueuesOk(qs: Queues) {
    forall q | q in qs :: QueueOk(qs[q])
  }

  ghost predicate Placed(d: Cfqd) {
    && TreesOk(d.queues, d.keys, d.trees)
    && GroupsOk(d.queues, d.groups, d.gt.nodes)
    && TreeInv(d.gt)
    && QueuesOk(d.queues)
  }

  ghost function OnRr(qs: Queues): set<nat> {
    set q | q in qs && qs[q].onRR
  }

  /** busy_queues counts the on_rr queues, which are those on a service tree. */
  ghost predicate RrOk(qs: Queues, busy: int) {
    && busy == |OnRr(qs)|
    && forall q | q in qs :: qs[q].onRR <==> qs[q].tree.Some?
  }

  ghost function AllRqs(qs: Queues): set<(nat, Rq)> {
    set q, r | q in qs && r in qs[q].pending.sort :: (q, r)
  }

  /** A queue with requests is on_rr; an on_rr queue without requests is the active one. */
  ghost predicate Backed(qs: Queues, active: Option<nat>) {
    && (forall q | q in qs && qs[q].pending.sort != [] :: qs[q].onRR)
    && (forall q | q in qs && qs[q].onRR && active != Some(q) :: qs[q].pending.sort != [])
    && (active.Some? ==> active.value in qs && qs[active.value].onRR)
  }

  ghost predicate Books(d: Cfqd) {
    && Placed(d)
    && RrOk(d.queues, d.busy)
    && d.rqQueued == |AllRqs(d.queues)|
    && Backed(d.queues, d.active)
  }

  // ---------------------------------------------------------------------------
  // cfq_service_tree_add
  // ---------------------------------------------------------------------------

  /** Everything but the placement of queue q is as before. */
  ghost predicate Replaced(d: Cfqd, d': Cfqd, q: nat) {
    && q in d.queues
    && q in d'.queues
    && d'.queues == d.queues[q := d'.queues[q]]
    && d'.queues[q].onRR == d.queues[q].onRR
    && d'.queues[q].pending == d.queues[q].pending
    && d'.busy == d.busy
    && d'.rqQueued == d.rqQueued
    && d'.active == d.active
    && d'.isolation == d.isolation
    && d'.tuning == d.tuning
    && d'.lastPos == d.lastPos
    && d'.dispatched == d.dispatched
  }

  lemma RegroupedOk(c: Cfqq, isolation: bool)
    requires QueueOk(c)
    ensures var c1 := Regrouped(c, isolation);
            && QueueOk(c1.(tree := Some(TreeId(c1.group, KindOf(c1)))))
            && c1.tree == c.tree && c1.pending == c.pending && c1.onRR == c.onRR
            && (c1 != c <==> c1.group != c.group)
  {
    hide Tidy;
  }

  lemma QueuesOkSet(qs: Queues, q: nat, c: Cfqq)
    requires QueuesOk(qs) && QueueOk(c)
    ensures QueuesOk(qs[q := c])
  {
    hide QueueOk;
  }

  /** The queue is put on a tree for the first time. */
  lemma PlacedNew(d: Cfqd, q: nat, c: Cfqq, t: TreeId, key: int)
    requires Placed(d) && q in d.queues && d.queues[q].tree.None? && QueueOk(c) && c.tree == Some(t)
    ensures var keys := d.keys[q := key];
            var d2 := d.(queues := d.queues[q := c], keys := keys, trees := d.trees[t := TreeLink(TreeAt(d.trees, t), keys, q)]);
            Placed(GroupAdd(d2, c.group))
  {
    hide TreesOk, GroupsOk, TreeInv, QueueOk, TreeLink, AddGroup;
    var keys := d.keys[q := key];
    var d2 := d.(queues := d.queues[q := c], keys := keys, trees := d.trees[t := TreeLink(TreeAt(d.trees, t), keys, q)]);
    TreesJoined(d.queues, d.keys, d.trees, q, c, t, key);
    GroupsJoined(d2, d.queues, q, c);
  }

  lemma TreesMoved(qs: Queues, keys: map<nat, int>, trees: map<TreeId, Tree>, q: nat, c: Cfqq, t: TreeId, key: int)
    requires TreesOk(qs, keys, trees) && q in qs && c.tree == Some(t)
    ensures var trees' := TreesWithout(trees, qs[q].tree, q);
            TreesOk(qs[q := c], keys[q := key], trees'[t := TreeLink(TreeAt(trees', t), keys[q := key], q)])
  {
    hide TreesOk, TreeLink, TreesWithout;
    var c0 := c.(tree := None);
    TreesLeft(qs, keys, trees, q, c0);
    TreesJoined(qs[q := c0], keys, TreesWithout(trees, qs[q].tree, q), q, c, t, key);
    assert qs[q := c0][q := c] == qs[q := c];
  }

  /** The queue moves to another place of its own group. */
  lemma PlacedMoved(d: Cfqd, q: nat, c: Cfqq, t: TreeId, key: int)
    requires Placed(d) && q in d.queues && d.queues[q].tree.Some? && QueueOk(c) && c.tree == Some(t)
    requires c.group == d.queues[q].group
    ensures var trees := TreesWithout(d.trees, d.queues[q].tree, q);
            var keys := d.keys[q := key];
            Placed(d.(queues := d.queues[q := c], keys := keys, trees := trees[t := TreeLink(TreeAt(trees, t), keys, q)]))
  {
    hide TreesOk, GroupsOk, TreeInv, QueueOk, TreeLink, TreesWithout;
    TreesMoved(d.queues, d.keys, d.trees, q, c, t, key);
    GroupsSame(d.queues, d.groups, d.gt.nodes, q, c);
  }

  /** The queue moves to another group. */
  lemma PlacedRegrouped(d: Cfqd, q: nat, c: Cfqq, t: TreeId, key: int)
    requires Placed(d) && q in d.queues && d.queues[q].tree.Some? && QueueOk(c) && c.tree == Some(t)
    ensures var d1 := GroupDel(d, d.queues[q].group);
            var trees := TreesWithout(d.trees, d.queues[q].tree, q);
            var keys := d.keys[q := key];
            var d2 := d1.(queues := d.queues[q := c], keys := keys, trees := trees[t := TreeLink(TreeAt(trees, t), keys, q)]);
            Placed(GroupAdd(d2, c.group))
  {
    hide TreesOk, GroupsOk, TreeInv, QueueOk, TreeLink, TreesWithout, AddGroup, DelGroup;
    var d1 := GroupDel(d, d.queues[q].group);
    var trees := TreesWithout(d.trees, d.queues[q].tree, q);
    var keys := d.keys[q := key];
    var d2 := d1.(queues := d.queues[q := c], keys := keys, trees := trees[t := TreeLink(TreeAt(trees, t), keys, q)]);
    TreesMoved(d.queues, d.keys, d.trees, q, c, t, key);
    var c0 := c.(tree := None);
    GroupsLeft(d, d.queues, q, c0);
    GroupsJoined(d2, d.queues[q := c0], q, c);
    assert d.queues[q := c0][q := c] == d.queues[q := c];
  }

  lemma GroupOpsSame(d: Cfqd, g: nat)
    ensures var d' := GroupAdd(d, g); d' == d.(groups := d'.groups, gt := d'.gt)
    ensures var d' := GroupDel(d, g); d' == d.(groups := d'.groups, gt := d'.gt)
  {
  }

  /** What cfq_service_tree_add leaves behind. */
  ghost predicate AddedTo(d: Cfqd, d': Cfqd, q: nat) {
    Placed(d') && Replaced(d, d', q) && d'.queues[q].tree.Some?
  }

  lemma AddNew(d: Cfqd, q: nat, key: int)
    requires Placed(d) && q in d.queues && d.queues[q].tree.None?
    ensures AddedTo(d, ServiceTreeAdd(d, q, key, false), q)
  {
    hide TreesOk, GroupsOk, TreeInv, QueueOk, TreeLink, TreesWithout, GroupAdd, GroupDel, Regrouped, KindOf;
    var c := d.queues[q];
    RegroupedOk(c, d.isolation);
    var c1 := Regrouped(c, d.isolation);
    var t := TreeId(c1.group, KindOf(c1));
    var c2 := c1.(tree := Some(t));
    PlacedNew(d, q, c2, t, key);
    NothingWithout(d.trees, q);
    var keys := d.keys[q := key];
    GroupOpsSame(d.(queues := d.queues[q := c2], keys := keys, trees := d.trees[t := TreeLink(TreeAt(d.trees, t), keys, q)]), c1.group);
  }

  lemma AddRegrouped(d: Cfqd, q: nat, key: int, front: bool)
    requires Placed(d) && q in d.queues && d.queues[q].tree.Some?
    requires Regrouped(d.queues[q], d.isolation) != d.queues[q]
    ensures AddedTo(d, ServiceTreeAdd(d, q, key, front), q)
  {
    hide TreesOk, GroupsOk, TreeInv, QueueOk, TreeLink, TreesWithout, GroupAdd, GroupDel, Regrouped, KindOf;
    var c := d.queues[q];
    RegroupedOk(c, d.isolation);
    var c1 := Regrouped(c, d.isolation);
    var t := TreeId(c1.group, KindOf(c1));
    var c2 := c1.(tree := Some(t));
    var d1 := GroupDel(d, c.group);
    GroupOpsSame(d, c.group);
    var trees, keys := TreesWithout(d1.trees, c.tree, q), d1.keys[q := key];
    GroupOpsSame(d1.(queues := d1.queues[q := c2], keys := keys, trees := trees[t := TreeLink(TreeAt(trees, t), keys, q)]), c1.group);
    SameTreeSameGroup(c, c1, t);
    PlacedRegrouped(d, q, c2, t, key);
  }

  lemma AddMoved(d: Cfqd, q: nat, key: int, front: bool)
    requires Placed(d) && q in d.queues && d.queues[q].tree.Some?
    requires Regrouped(d.queues[q], d.isolation) == d.queues[q]
    ensures AddedTo(d, ServiceTreeAdd(d, q, key, front), q)
  {
    hide TreesOk, GroupsOk, TreeInv, QueueOk, TreeLink, TreesWithout, GroupAdd, GroupDel, Regrouped, KindOf;
    var c := d.queues[q];
    RegroupedOk(c, d.isolation);
    var t := TreeId(c.group, KindOf(c));
    if key == Vt(d.keys, q) && c.tree == Some(t) {
      assert d.queues[q := c] == d.queues;
    } else {
      PlacedMoved(d, q, c.(tree := Some(t)), t, key);
    }
  }

  lemma ServiceTreeAddKeeps(d: Cfqd, q: nat, key: int, front: bool)
    requires Placed(d) && q in d.queues && (front ==> d.queues[q].tree.Some?)
    ensures AddedTo(d, ServiceTreeAdd(d, q, key, front), q)
  {
    hide Placed, AddedTo, ServiceTreeAdd, Regrouped;
    if d.queues[q].tree.None? {
      AddNew(d, q, key);
    } else if Regrouped(d.queues[q], d.isolation) != d.queues[q] {
      AddRegrouped(d, q, key, front);
    } else {
      AddMoved(d, q, key, front);
    }
  }

  lemma NothingWithout(trees: map<TreeId, Tree>, q: nat)
    ensures TreesWithout(trees, None, q) == trees
  {
  }

  lemma SameTreeSameGroup(c: Cfqq, c1: Cfqq, t: TreeId)
    requires QueueOk(c) && c1.group != c.group && t.group == c1.group
    ensures c.tree != Some(t)
  {
  }

  // ---------------------------------------------------------------------------
  // cfq_add_cfqq_rr and cfq_del_cfqq_rr
  // ---------------------------------------------------------------------------

  lemma OnRrMore(qs: Queues, q: nat, c: Cfqq)
    requires q in qs && !qs[q].onRR && c.onRR
    ensures |OnRr(qs[q := c])| == |OnRr(qs)| + 1
  {
    assert OnRr(qs[q := c]) == OnRr(qs) + {q};
  }

  lemma OnRrLess(qs: Queues, q: nat, c: Cfqq)
    requires q in qs && qs[q].onRR && !c.onRR
    ensures |OnRr(qs[q := c])| == |OnRr(qs)| - 1
  {
    assert OnRr(qs) == OnRr(qs[q := c]) + {q};
  }

  lemma OnRrSame(qs: Queues, q: nat, c: Cfqq)
    requires q in qs && qs[q].onRR == c.onRR
    ensures OnRr(qs[q := c]) == OnRr(qs)
  {
  }

  lemma AllRqsSame(qs: Queues, q: nat, c: Cfqq)
    requires q in qs && c.pending.sort == qs[q].pending.sort
    ensures AllRqs(qs[q := c]) == AllRqs(qs)
  {
  }

  lemma PlacedSame(d: Cfqd, q: nat, c: Cfqq)
    requires Placed(d) && q in d.queues && QueueOk(c)
    requires c.tree == d.queues[q].tree && c.group == d.queues[q].group
    ensures Placed(d.(queues := d.queues[q := c]))
  {
    hide TreesOk, GroupsOk, TreeInv, QueueOk;
    TreesSame(d.queues, d.keys, d.trees, q, c);
    GroupsSame(d.queues, d.groups, d.gt.nodes, q, c);
  }

  /** The queue gets on the round-robin list; its requests are untouched. */
  lemma AddRrKeeps(d: Cfqd, q: nat, key: int)
    requires Placed(d) && RrOk(d.queues, d.busy) && q in d.queues && !d.queues[q].onRR
    ensures var d' := AddRr(d, q, key);
            && Placed(d') && RrOk(d'.queues, d'.busy)
            && q in d'.queues && d'.queues == d.queues[q := d'.queues[q]]
            && d'.queues[q].onRR && d'.queues[q].pending == d.queues[q].pending
            && d'.rqQueued == d.rqQueued && d'.active == d.active && d'.tuning == d.tuning && d'.dispatched == d.dispatched
  {
    hide TreesOk, GroupsOk, TreeInv, QueueOk, ServiceTreeAdd, OnRr;
    var d1 := d.(queues := d.queues[q := d.queues[q].(onRR := true)], busy := d.busy + 1);
    assert QueueOk(d.queues[q].(onRR := true)) by { FlagOk(d.queues[q]); }
    PlacedSame(d, q, d.queues[q].(onRR := true));
    ServiceTreeAddKeeps(d1, q, key, false);
    var d' := ServiceTreeAdd(d1, q, key, false);
    assert d'.queues == d.queues[q := d'.queues[q]];
    OnRrMore(d.queues, q, d'.queues[q]);
  }

  lemma FlagOk(c: Cfqq)
    requires QueueOk(c)
    ensures QueueOk(c.(onRR := true)) && QueueOk(c.(onRR := false, tree := None))
  {
  }

  /** The queue gets off the round-robin list; its counters were positive. */
  lemma DelRrKeeps(d: Cfqd, q: nat)
    requires Placed(d) && RrOk(d.queues, d.busy) && q in d.queues && d.queues[q].onRR
    ensures var d' := DelRr(d, q);
            && Placed(d') && RrOk(d'.queues, d'.busy)
            && d'.queues == d.queues[q := d.queues[q].(onRR := false, tree := None)]
            && d'.rqQueued == d.rqQueued && d'.active == d.active && d'.tuning == d.tuning && d'.dispatched == d.dispatched
            && d.busy > 0 && GroupAt(d.groups, d.queues[q].group).nrCfqq >= 1
  {
    hide TreesOk, GroupsOk, TreeInv, QueueOk, OnRr, GroupDel, TreesWithout;
    var c0 := d.queues[q].(onRR := false, tree := None);
    FlagOk(d.queues[q]);
    TreesLeft(d.queues, d.keys, d.trees, q, c0);
    GroupsLeft(d, d.queues, q, c0);
    OnRrLess(d.queues, q, c0);
    var d1 := d.(queues := d.queues[q := c0], trees := TreesWithout(d.trees, d.queues[q].tree, q));
    GroupDelSame(d, d1, d.queues[q].group);
    GroupOpsSame(d1, d.queues[q].group);
  }

  lemma GroupDelSame(d: Cfqd, d1: Cfqd, g: nat)
    requires d1.groups == d.groups && d1.gt == d.gt
    ensures GroupDel(d1, g).groups == GroupDel(d, g).groups && GroupDel(d1, g).gt == GroupDel(d, g).gt
  {
    hide DelGroup, GroupAt;
  }
}
