/** CFQ's queues, service trees and groups, with every counter the source keeps.

    Times are parameters: the key of a service-tree insertion, the charge of a slice, and the
    outcome of every test of jiffies. */
module CfqQueues {
  import opened Common
  import opened RequestTree
  import opened CfqRequests
  import opened CfqGroups

  /** A service tree of a group: kinds 0 to 2 are the BE trees (async, sync-noidle, sync), 3 to 5
      the RT trees, and 6 is the idle tree. */
  datatype TreeId = TreeId(group: nat, kind: nat)

  const BE: nat := 0
  const RT: nat := 3
  const IDLE: nat := 6
  const ASYNC: nat := 0
  const SYNC_NOIDLE: nat := 1
  const SYNC: nat := 2
  const ROOT: nat := 0

  /** struct cfq_rb_root of queues, in order, with the leftmost cache. */
  datatype Tree = Tree(nodes: seq<nat>, left: Option<nat>, count: int)

  datatype Cfqq = Cfqq(
    onRR: bool,
    tree: Option<TreeId>,   // service_tree, when linked
    group: nat,             // cfqg
    orig: Option<nat>,      // orig_cfqg
    idleClass: bool,
    rtClass: bool,
    sync: bool,
    idleWindow: bool,
    pending: Pending
  )

  datatype Group = Group(onSt: bool, nrCfqq: int)

  datatype Cfqd = Cfqd(
    queues: map<nat, Cfqq>,
    keys: map<nat, int>,            // rb_key of each queue
    trees: map<TreeId, Tree>,
    groups: map<nat, Group>,
    gt: GroupTree,
    busy: int,                      // busy_queues
    rqQueued: int,
    active: Option<nat>,
    isolation: bool,
    lastPos: int,
    tuning: Tuning,
    dispatched: seq<(nat, Rq)>      // what was moved to the dispatch list, from which queue
  )

  function TreeAt(trees: map<TreeId, Tree>, t: TreeId): Tree {
    if t in trees then trees[t] else Tree([], None, 0)
  }

  function GroupAt(groups: map<nat, Group>, g: nat): Group {
    if g in groups then groups[g] else Group(false, 0)
  }

  function TypeOf(c: Cfqq): (w: nat)
    ensures w <= SYNC
  {
    if !c.sync then ASYNC else if !c.idleWindow then SYNC_NOIDLE else SYNC
  }

  function KindOf(c: Cfqq): (k: nat)
    ensures k <= IDLE
  {
    if c.idleClass then IDLE else if c.rtClass then RT + TypeOf(c) else BE + TypeOf(c)
  }

  // ---------------------------------------------------------------------------
  // Service trees and group membership
  // ---------------------------------------------------------------------------

  /** The insertion of cfq_service_tree_add. */
  function TreeLink(t: Tree, keys: map<nat, int>, q: nat): Tree {
    var i := Place(t.nodes, keys, Vt(keys, q));
    Tree(t.nodes[..i] + [q] + t.nodes[i..], if i == 0 then Some(q) else t.left, t.count + 1)
  }

  /** cfq_rb_erase */
  function TreeUnlink(t: Tree, q: nat): Tree {
    Tree(Erase(t.nodes, q), if t.left == Some(q) then None else t.left, t.count - 1)
  }

  /** cfq_rb_first */
  function TreeFirst(t: Tree): Option<nat> {
    if t.count == 0 then None
    else if t.left.Some? then t.left
    else if t.nodes != [] then Some(t.nodes[0]) else None
  }

  /** cfq_group_service_tree_add */
  function GroupAdd(d: Cfqd, g: nat): Cfqd {
    var r := GroupAt(d.groups, g);
    d.(groups := d.groups[g := Group(true, r.nrCfqq + 1)], gt := if r.onSt then d.gt else AddGroup(d.gt, g))
  }

  function GroupLess(r: Group): Group {
    if r.nrCfqq - 1 != 0 then r.(nrCfqq := r.nrCfqq - 1) else Group(false, 0)
  }

  function GroupTreeLess(gt: GroupTree, r: Group, g: nat): GroupTree {
    if r.nrCfqq - 1 != 0 then gt.(active := if gt.active == Some(g) then None else gt.active) else DelGroup(gt, g)
  }

  /** cfq_group_service_tree_del */
  function GroupDel(d: Cfqd, g: nat): Cfqd {
    var r := GroupAt(d.groups, g);
    d.(groups := d.groups[g := GroupLess(r)], gt := GroupTreeLess(d.gt, r, g))
  }

  /** The group a queue moves to when its type changes: without isolation, sync-noidle queues
      live in the root group and return to their own group when they turn sequential. */
  function Regrouped(c: Cfqq, isolation: bool): Cfqq {
    if !isolation && TypeOf(c) == SYNC_NOIDLE && c.group != ROOT then c.(orig := Some(c.group), group := ROOT)
    else if !isolation && TypeOf(c) == SYNC && c.orig.Some? then c.(group := c.orig.value, orig := None)
    else c
  }

  function TreesWithout(trees: map<TreeId, Tree>, t: Option<TreeId>, q: nat): map<TreeId, Tree> {
    if t.None? then trees else trees[t.value := TreeUnlink(TreeAt(trees, t.value), q)]
  }

  /** Queue q, as c, goes from the tree it is on, if any, to tree t. */
  function Relinked(d: Cfqd, q: nat, off: Option<TreeId>, c: Cfqq, t: TreeId, key: int): Cfqd {
    var trees := TreesWithout(d.trees, off, q);
    var keys := d.keys[q := key];
    d.(queues := d.queues[q := c.(tree := Some(t))], keys := keys, trees := trees[t := TreeLink(TreeAt(trees, t), keys, q)])
  }

  /** cfq_service_tree_add */
  function ServiceTreeAdd(d: Cfqd, q: nat, key: int, front: bool): Cfqd
    requires q in d.queues
  {
    var c := d.queues[q];
    var c1 := Regrouped(c, d.isolation);
    var changed := c1 != c;
    var isNew := c.tree.None?;
    var d1 := if changed && !isNew then GroupDel(d, c.group) else d;
    var t := TreeId(c1.group, KindOf(c1));
    if !isNew && key == Vt(d.keys, q) && c.tree == Some(t) then d1
    else
      var d2 := Relinked(d1, q, c.tree, c1, t, key);
      if (front || !isNew) && !changed then d2 else GroupAdd(d2, c1.group)
  }

  /** cfq_resort_rr_list */
  function Resort(d: Cfqd, q: nat, key: int): Cfqd
    requires q in d.queues
  {
    if d.queues[q].onRR then ServiceTreeAdd(d, q, key, false) else d
  }

  /** cfq_add_cfqq_rr */
  function AddRr(d: Cfqd, q: nat, key: int): Cfqd
    requires q in d.queues
  {
    Resort(d.(queues := d.queues[q := d.queues[q].(onRR := true)], busy := d.busy + 1), q, key)
  }

  /** cfq_del_cfqq_rr */
  function DelRr(d: Cfqd, q: nat): Cfqd
    requires q in d.queues
  {
    var c := d.queues[q];
    var d1 := d.(queues := d.queues[q := c.(onRR := false, tree := None)], trees := TreesWithout(d.trees, c.tree, q));
    var d2 := GroupDel(d1, c.group);
    d2.(busy := d2.busy - 1)
  }

  // ---------------------------------------------------------------------------
  // Requests
  // ---------------------------------------------------------------------------

  function SetPending(d: Cfqd, q: nat, p: Pending): Cfqd
    requires q in d.queues
  {
    d.(queues := d.queues[q := d.queues[q].(pending := p)])
  }

  /** cfq_dispatch_insert */
  function DispatchRq(d: Cfqd, q: nat, rq: Rq): Cfqd
    requires q in d.queues
  {
    SetPending(d, q, DispatchInsert(d.queues[q].pending, rq, d.tuning))
      .(rqQueued := d.rqQueued - 1, dispatched := d.dispatched + [(q, rq)])
  }

  /** What adding a request at a sector dispatches. */
  function AliasLeaves(d: Cfqd, q: nat, alias: Option<Rq>): Cfqd {
    if alias.None? then d else d.(rqQueued := d.rqQueued - 1, dispatched := d.dispatched + [(q, alias.value)])
  }

  /** cfq_insert_request without preemption */
  function InsertRq(d: Cfqd, q: nat, rq: Rq, key: int): Cfqd
    requires q in d.queues
  {
    var p := d.queues[q].pending;
    var d1 := AliasLeaves(SetPending(d, q, Enqueue(p, rq, d.lastPos, d.tuning)), q, Alias(p.sort, rq.sector));
    var d2 := if d1.queues[q].onRR then d1 else AddRr(d1, q, key);
    d2.(rqQueued := d2.rqQueued + 1)
  }

  /** cfq_merged_request after a front merge */
  function RepositionRq(d: Cfqd, q: nat, rq: Rq, sector: int): Cfqd
    requires q in d.queues
  {
    var p := d.queues[q].pending;
    AliasLeaves(SetPending(d, q, Reposition(p, rq, sector, d.lastPos, d.tuning)), q, Alias(Erase(p.sort, rq), sector))
  }

  /** cfq_merged_requests */
  function MergeRq(d: Cfqd, q: nat, rq: Rq, next: Rq): Cfqd
    requires q in d.queues
  {
    SetPending(d, q, MergeAway(d.queues[q].pending, rq, next, d.tuning)).(rqQueued := d.rqQueued - 1)
  }

  // ---------------------------------------------------------------------------
  // Slices
  // ---------------------------------------------------------------------------

  function ClearActive(d: Cfqd, q: nat): Cfqd
    requires q in d.queues
  {
    d.(active := if d.active == Some(q) then None else d.active,
       gt := d.gt.(active := if d.gt.active == Some(d.queues[q].group) then None else d.gt.active))
  }

  /** __cfq_slice_expired */
  function SliceExpired(d: Cfqd, q: nat, charge: nat, key: int): Cfqd
    requires q in d.queues
  {
    var c := d.queues[q];
    var d1 := d.(gt := Serve(d.gt, c.group, charge));
    var d2 := if c.onRR && c.pending.sort == [] then DelRr(d1, q) else d1;
    var d3 := if q in d2.queues then Resort(d2, q, key) else d2;
    if q in d3.queues then ClearActive(d3, q) else d3
  }

  /** cfq_slice_expired */
  function ExpireActive(d: Cfqd, charge: nat, key: int): Cfqd {
    if d.active.Some? && d.active.value in d.queues then SliceExpired(d, d.active.value, charge, key) else d
  }

  /** cfq_preempt_queue */
  function Preempt(d: Cfqd, q: nat, charge: nat, key: int, key': int): Cfqd {
    var d1 := ExpireActive(d, charge, key);
    if q in d1.queues then ServiceTreeAdd(d1, q, key', true) else d1
  }
}
