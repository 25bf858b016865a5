/** Queue selection and forced dispatch. */
module CfqService {
  import opened Common
  import opened RequestTree
  import opened CfqRequests
  import opened CfqGroups
  import opened CfqQueues
  import opened CfqBooks
  import opened CfqSteps

  // ---------------------------------------------------------------------------
  // The seven trees of a group
  // ---------------------------------------------------------------------------

  function Count(d: Cfqd, g: nat, kind: nat): int {
    TreeAt(d.trees, TreeId(g, kind)).count
  }

  ghost function LinkedTo(qs: Queues, t: TreeId): set<nat> {
    set q | q in qs && qs[q].tree == Some(t)
  }

  ghost function UpTo(qs: Queues, g: nat, k: nat): set<nat> {
    set q | q in qs && qs[q].tree.Some? && qs[q].tree.value.group == g && qs[q].tree.value.kind < k
  }

  ghost function SumCounts(d: Cfqd, g: nat, k: nat): int {
    if k == 0 then 0 else SumCounts(d, g, k - 1) + Count(d, g, k - 1)
  }

  ghost function SetOf<T>(s: seq<T>): set<T> {
    set x | x in s
  }

  lemma {:induction false} SizeOfSeq<T>(s: seq<T>)
    requires NoDup(s)
    ensures |SetOf(s)| == |s|
  {
    if s != [] {
      var t := s[..|s| - 1];
      SizeOfSeq(t);
      assert s == t + [s[|s| - 1]];
      assert SetOf(s) == SetOf(t) + {s[|s| - 1]};
    }
  }

  lemma CountIs(d: Cfqd, t: TreeId)
    requires TreesOk(d.queues, d.keys, d.trees)
    ensures TreeAt(d.trees, t).count == |LinkedTo(d.queues, t)|
  {
    hide ByTime, LeftOk, NoDup;
    var tree := TreeAt(d.trees, t);
    assert TreeOk(d.queues, d.keys, t, tree);
    SizeOfSeq(tree.nodes);
    forall q ensures q in LinkedTo(d.queues, t) <==> q in tree.nodes {
      assert q in tree.nodes <==> Linked(d.queues, q, t);
    }
    assert LinkedTo(d.queues, t) == SetOf(tree.nodes);
  }

  lemma {:induction false} CountsAddUp(d: Cfqd, g: nat, k: nat)
    requires TreesOk(d.queues, d.keys, d.trees)
    ensures SumCounts(d, g, k) == |UpTo(d.queues, g, k)|
  {
    hide TreesOk, UpTo, LinkedTo;
    UpToNone(d.queues, g);
    if k > 0 {
      CountsAddUp(d, g, k - 1);
      CountIs(d, TreeId(g, k - 1));
      UpToNext(d.queues, g, k - 1);
    }
  }

  lemma UpToNone(qs: Queues, g: nat)
    ensures UpTo(qs, g, 0) == {}
  {
  }

  lemma UpToNext(qs: Queues, g: nat, k: nat)
    ensures |UpTo(qs, g, k + 1)| == |UpTo(qs, g, k)| + |LinkedTo(qs, TreeId(g, k))|
  {
    assert UpTo(qs, g, k + 1) == UpTo(qs, g, k) + LinkedTo(qs, TreeId(g, k));
    assert UpTo(qs, g, k) !! LinkedTo(qs, TreeId(g, k));
  }

  /** nr_cfqq is the sum of the seven tree counts. */
  lemma SevenTrees(d: Cfqd, g: nat)
    requires Books(d)
    ensures GroupAt(d.groups, g).nrCfqq == SumCounts(d, g, 7)
  {
    hide TreesOk, TreeInv, SumCounts, Tidy, AllRqs, OnRr;
    CountsAddUp(d, g, 7);
    assert GroupOk(d.queues, d.gt.nodes, g, GroupAt(d.groups, g));
    forall q | q in d.queues ensures q in UpTo(d.queues, g, 7) <==> q in QueuesOf(d.queues, g) {
      assert QueueOk(d.queues[q]);
    }
    assert UpTo(d.queues, g, 7) == QueuesOf(d.queues, g);
  }

  lemma CountsNotNegative(d: Cfqd, g: nat, k: nat)
    requires TreesOk(d.queues, d.keys, d.trees)
    ensures Count(d, g, k) >= 0
  {
    hide TreesOk;
    CountIs(d, TreeId(g, k));
  }

  lemma SumNext(d: Cfqd, g: nat, k: nat)
    requires k > 0
    ensures SumCounts(d, g, k) == SumCounts(d, g, k - 1) + Count(d, g, k - 1)
  {
  }

  lemma SumUnrolled(d: Cfqd, g: nat)
    ensures SumCounts(d, g, 7) == Count(d, g, 0) + Count(d, g, 1) + Count(d, g, 2) + Count(d, g, 3) + Count(d, g, 4) + Count(d, g, 5) + Count(d, g, 6)
  {
    hide Count;
    SumNext(d, g, 1);
    SumNext(d, g, 2);
    SumNext(d, g, 3);
    SumNext(d, g, 4);
    SumNext(d, g, 5);
    SumNext(d, g, 6);
    SumNext(d, g, 7);
  }

  /** The nr_sync of cfq_group_served is never negative. */
  lemma SyncNotNegative(d: Cfqd, g: nat)
    requires Books(d)
    ensures GroupAt(d.groups, g).nrCfqq - (Count(d, g, RT + ASYNC) + Count(d, g, BE + ASYNC)) - Count(d, g, IDLE) >= 0
  {
    hide TreesOk, GroupsOk, TreeInv, QueuesOk, RrOk, Backed, AllRqs, Count;
    SevenTrees(d, g);
    SumUnrolled(d, g);
    forall k: nat ensures Count(d, g, k) >= 0 {
      CountsNotNegative(d, g, k);
    }
  }

  // ---------------------------------------------------------------------------
  // There is something to choose
  // ---------------------------------------------------------------------------

  lemma SomeOnRr(d: Cfqd) returns (q: nat)
    requires Books(d) && (d.busy > 0 || d.rqQueued > 0)
    ensures q in d.queues && d.queues[q].onRR
  {
    hide Placed;
    if d.busy > 0 {
      assert OnRr(d.queues) != {};
      q :| q in OnRr(d.queues);
    } else {
      assert AllRqs(d.queues) != {};
      var x :| x in AllRqs(d.queues);
      q := x.0;
    }
  }

  /** The group tree is not empty while a queue is busy or a request is queued. */
  lemma GroupTreeNotEmpty(d: Cfqd)
    requires Books(d) && (d.busy > 0 || d.rqQueued > 0)
    ensures d.gt.nodes != []
  {
    hide Placed, AllRqs, OnRr, Backed;
    var q := SomeOnRr(d);
    GroupOnTree(d, q);
  }

  /** A group on the tree has a queue. */
  lemma GroupHasQueue(d: Cfqd, g: nat)
    requires Books(d) && g in d.gt.nodes
    ensures SumCounts(d, g, 7) > 0
  {
    hide TreesOk, TreeInv, QueuesOk, RrOk, Backed, AllRqs, SumCounts, QueuesOf;
    assert GroupOk(d.queues, d.gt.nodes, g, GroupAt(d.groups, g));
    SevenTrees(d, g);
  }

  /** The first queue of a tree that is not empty is linked to it, and has the least key. */
  lemma FirstOfTree(d: Cfqd, t: TreeId)
    requires TreesOk(d.queues, d.keys, d.trees)
    ensures TreeFirst(TreeAt(d.trees, t)).Some? <==> TreeAt(d.trees, t).count > 0
    ensures TreeFirst(TreeAt(d.trees, t)).Some? ==>
              var q := TreeFirst(TreeAt(d.trees, t)).value;
              Linked(d.queues, q, t) && forall x | x in TreeAt(d.trees, t).nodes :: Vt(d.keys, q) <= Vt(d.keys, x)
  {
    hide NoDup;
    var tree := TreeAt(d.trees, t);
    assert TreeOk(d.queues, d.keys, t, tree);
    if tree.nodes != [] {
      FirstIsLeast(tree.nodes, d.keys);
    }
  }

  // ---------------------------------------------------------------------------
  // cfq_select_queue
  // ---------------------------------------------------------------------------

  /** cfq_group_busy_queues_wl for RT and BE */
  function BusyQueues(d: Cfqd, g: nat, prio: nat): int {
    Count(d, g, prio) + Count(d, g, prio + 1) + Count(d, g, prio + 2)
  }

  function FirstKey(d: Cfqd, g: nat, kind: nat): Option<int> {
    var q := TreeFirst(TreeAt(d.trees, TreeId(g, kind)));
    if q.None? then None else Some(Vt(d.keys, q.value))
  }

  /** The key of the first queue of type i. */
  function KeyOf(d: Cfqd, g: nat, prio: nat, i: nat): Option<int> {
    FirstKey(d, g, prio + i)
  }

  /** b is the first of the types below n whose first queue has the lowest key of all. */
  ghost predicate IsLowest(d: Cfqd, g: nat, prio: nat, n: nat, b: nat) {
    && b < n && KeyOf(d, g, prio, b).Some?
    && (forall i: nat | i < n && KeyOf(d, g, prio, i).Some? ::
          && KeyOf(d, g, prio, b).value <= KeyOf(d, g, prio, i).value
          && (i < b ==> KeyOf(d, g, prio, b).value < KeyOf(d, g, prio, i).value))
  }

  ghost predicate NoKeys(d: Cfqd, g: nat, prio: nat, n: nat) {
    forall i: nat | i < n :: KeyOf(d, g, prio, i).None?
  }

  /** Of the types below n, the one whose first queue has the lowest key. */
  function LowestBelow(d: Cfqd, g: nat, prio: nat, n: nat): (b: Option<nat>)
    ensures b.None? ==> NoKeys(d, g, prio, n)
    ensures b.Some? ==> IsLowest(d, g, prio, n, b.value)
  {
    if n == 0 then None
    else
      var b := LowestBelow(d, g, prio, n - 1);
      var key := KeyOf(d, g, prio, n - 1);
      if key.Some? && (b.None? || key.value < KeyOf(d, g, prio, b.value).value) then Some(n - 1) else b
  }

  /** cfq_choose_wl */
  function ChooseWl(d: Cfqd, g: nat, prio: nat): (w: nat)
    ensures w <= SYNC
  {
    var b := LowestBelow(d, g, prio, SYNC + 1);
    if b.Some? then b.value else SYNC_NOIDLE
  }

  /** The loop of cfq_choose_wl finds the type whose first queue has the lowest key, the first of
      them if there are more. */
  method ChooseWorkload(d: Cfqd, g: nat, prio: nat) returns (best: nat)
    ensures best == ChooseWl(d, g, prio)
    ensures IsLowest(d, g, prio, SYNC + 1, best) || (NoKeys(d, g, prio, SYNC + 1) && best == SYNC_NOIDLE)
  {
    hide KeyOf, IsLowest, NoKeys;
    best := SYNC_NOIDLE;
    var lowest: Option<int> := None;
    var i := 0;
    while i <= SYNC
      invariant 0 <= i <= SYNC + 1
      invariant var b := LowestBelow(d, g, prio, i);
                if b.Some? then best == b.value && lowest == KeyOf(d, g, prio, best) && lowest.Some?
                else best == SYNC_NOIDLE && lowest.None?
    {
      var key := KeyOf(d, g, prio, i);
      LowestHasKey(d, g, prio, i);
      if key.Some? && (lowest.None? || key.value < lowest.value) {
        lowest := key;
        best := i;
      }
      i := i + 1;
    }
  }

  lemma LowestHasKey(d: Cfqd, g: nat, prio: nat, n: nat)
    ensures LowestBelow(d, g, prio, n).Some? ==> KeyOf(d, g, prio, LowestBelow(d, g, prio, n).value).Some?
  {
  }

  /** choose_service_tree: RT before BE before idle; the running workload goes on unless it is
      over or has no queue. */
  function ChooseKind(d: Cfqd, g: nat, running: nat, over: bool): nat {
    if BusyQueues(d, g, RT) != 0 then
      if Count(d, g, RT + running) != 0 && !over then RT + running else RT + ChooseWl(d, g, RT)
    else if BusyQueues(d, g, BE) != 0 then
      if Count(d, g, BE + running) != 0 && !over then BE + running else BE + ChooseWl(d, g, BE)
    else IDLE
  }

  lemma ChooseWlFinds(d: Cfqd, g: nat, prio: nat)
    requires TreesOk(d.queues, d.keys, d.trees) && BusyQueues(d, g, prio) != 0
    ensures ChooseWl(d, g, prio) <= SYNC && Count(d, g, prio + ChooseWl(d, g, prio)) > 0
  {
    hide TreesOk, TreeAt, TreeFirst, Vt, Count;
    forall i: nat ensures KeyOf(d, g, prio, i).Some? <==> Count(d, g, prio + i) > 0 {
      KeyIffQueues(d, g, prio + i);
    }
    CountsNotNegative(d, g, prio);
    CountsNotNegative(d, g, prio + 1);
    CountsNotNegative(d, g, prio + 2);
    var w := ChooseWl(d, g, prio);
    assert !NoKeys(d, g, prio, SYNC + 1) by {
      assert KeyOf(d, g, prio, 0).Some? || KeyOf(d, g, prio, 1).Some? || KeyOf(d, g, prio, 2).Some?;
    }
  }

  lemma KeyIffQueues(d: Cfqd, g: nat, kind: nat)
    requires TreesOk(d.queues, d.keys, d.trees)
    ensures FirstKey(d, g, kind).Some? <==> Count(d, g, kind) > 0
  {
    hide TreesOk, TreeAt, TreeFirst, Vt;
    FirstOfTree(d, TreeId(g, kind));
  }

  /** The chosen service tree of a group on the tree is not empty. */
  lemma ChooseKindFinds(d: Cfqd, g: nat, running: nat, over: bool)
    requires Books(d) && g in d.gt.nodes && running <= SYNC
    ensures Count(d, g, ChooseKind(d, g, running, over)) > 0
  {
    hide TreesOk, GroupsOk, TreeInv, QueuesOk, RrOk, Backed, AllRqs, Count, ChooseWl;
    GroupHasQueue(d, g);
    SumUnrolled(d, g);
    forall k: nat ensures Count(d, g, k) >= 0 {
      CountsNotNegative(d, g, k);
    }
    if BusyQueues(d, g, RT) != 0 {
      ChooseWlFinds(d, g, RT);
    } else if BusyQueues(d, g, BE) != 0 {
      ChooseWlFinds(d, g, BE);
    }
  }

  /** Some queue waits on this tree of the group. */
  ghost predicate Waiting(d: Cfqd, g: nat, kind: nat) {
    exists q :: Linked(d.queues, q, TreeId(g, kind))
  }

  ghost predicate ClassWaits(d: Cfqd, g: nat, prio: nat) {
    exists kind: nat :: prio <= kind <= prio + SYNC && Waiting(d, g, kind)
  }

  /** The priority class a tree belongs to. */
  ghost function ClassOf(kind: nat): nat {
    if kind >= IDLE then IDLE else if kind >= RT then RT else BE
  }

  /** RT before BE before idle. */
  ghost function HighestClass(d: Cfqd, g: nat): nat {
    if ClassWaits(d, g, RT) then RT else if ClassWaits(d, g, BE) then BE else IDLE
  }

  /** The tree is of the highest class the group has; within it the running type goes on unless it
      is over or has no queue, and then the type whose first queue has the lowest key is next. */
  ghost predicate RightKind(d: Cfqd, g: nat, running: nat, over: bool, kind: nat) {
    && kind <= IDLE && Waiting(d, g, kind)
    && ClassOf(kind) == HighestClass(d, g)
    && (kind < IDLE ==>
          var prio := ClassOf(kind);
          if Waiting(d, g, prio + running) && !over then kind == prio + running
          else IsLowest(d, g, prio, SYNC + 1, kind - prio))
  }

  lemma WaitingIffCounted(d: Cfqd, g: nat, kind: nat)
    requires TreesOk(d.queues, d.keys, d.trees)
    ensures Waiting(d, g, kind) <==> Count(d, g, kind) > 0
  {
    hide TreesOk;
    var t := TreeId(g, kind);
    CountIs(d, t);
    if Count(d, g, kind) > 0 {
      assert LinkedTo(d.queues, t) != {};
      var q :| q in LinkedTo(d.queues, t);
      assert Linked(d.queues, q, t);
    } else {
      assert forall q | Linked(d.queues, q, t) :: q in LinkedTo(d.queues, t);
    }
  }

  lemma ClassWaitsIffBusy(d: Cfqd, g: nat, prio: nat)
    requires TreesOk(d.queues, d.keys, d.trees)
    ensures ClassWaits(d, g, prio) <==> BusyQueues(d, g, prio) != 0
  {
    hide TreesOk, Count, Waiting;
    forall kind: nat ensures Count(d, g, kind) >= 0 && (Waiting(d, g, kind) <==> Count(d, g, kind) > 0) {
      CountsNotNegative(d, g, kind);
      WaitingIffCounted(d, g, kind);
    }
  }

  lemma LowestWl(d: Cfqd, g: nat, prio: nat)
    requires TreesOk(d.queues, d.keys, d.trees) && BusyQueues(d, g, prio) != 0
    ensures IsLowest(d, g, prio, SYNC + 1, ChooseWl(d, g, prio))
  {
    hide TreesOk, TreeAt, TreeFirst, Vt, Count, IsLowest;
    var w := ChooseWl(d, g, prio);
    ChooseWlFinds(d, g, prio);
    KeyIffQueues(d, g, prio + w);
    assert KeyOf(d, g, prio, w).Some?;
  }

  /** choose_service_tree chooses the right tree of a group on the tree. */
  lemma ChooseKindRight(d: Cfqd, g: nat, running: nat, over: bool)
    requires Books(d) && g in d.gt.nodes && running <= SYNC
    ensures RightKind(d, g, running, over, ChooseKind(d, g, running, over))
  {
    hide TreesOk, GroupsOk, TreeInv, QueuesOk, RrOk, Backed, AllRqs, Count, ChooseWl, Waiting, ClassWaits, IsLowest, BusyQueues;
    var kind := ChooseKind(d, g, running, over);
    ChooseKindFinds(d, g, running, over);
    WaitingIffCounted(d, g, kind);
    ClassWaitsIffBusy(d, g, RT);
    ClassWaitsIffBusy(d, g, BE);
    WaitingIffCounted(d, g, RT + running);
    WaitingIffCounted(d, g, BE + running);
    CountsNotNegative(d, g, RT + running);
    CountsNotNegative(d, g, BE + running);
    if BusyQueues(d, g, RT) != 0 {
      LowestWl(d, g, RT);
    } else if BusyQueues(d, g, BE) != 0 {
      LowestWl(d, g, BE);
    }
  }

  function SetActive(d: Cfqd, q: Option<nat>): Cfqd {
    d.(active := q)
  }

  /** cfq_get_next_queue of the chosen tree */
  function NextQueue(d: Cfqd, g: nat, kind: nat): Option<nat> {
    if d.rqQueued == 0 then None else TreeFirst(TreeAt(d.trees, TreeId(g, kind)))
  }

  /** cfq_choose_cfqg and cfq_set_active_queue; null when the group tree is empty, where the
      source would follow a null pointer. */
  function SelectNew(d: Cfqd, running: nat, over: bool): (Cfqd, Option<nat>) {
    var (gt, g) := NextGroup(d.gt);
    var d1 := d.(gt := gt);
    if g.None? then (d1, None)
    else
      var q := NextQueue(d1, g.value, ChooseKind(d1, g.value, running, over));
      (SetActive(d1, q), q)
  }

  /** How the tests of cfq_select_queue end for an active queue while requests are queued. */
  datatype Verdict = Keep | Wait | Expire | Cooperate(q: nat)

  /** cfq_select_queue */
  function SelectQueue(d: Cfqd, v: Verdict, charge: nat, key: int, running: nat, over: bool): (Cfqd, Option<nat>) {
    if d.active.None? then SelectNew(d, running, over)
    else if d.rqQueued == 0 then (d, None)
    else match v
      case Keep => (d, d.active)
      case Wait => (d, None)
      case Expire => SelectNew(ExpireActive(d, charge, key), running, over)
      case Cooperate(q) => (SetActive(ExpireActive(d, charge, key), Some(q)), Some(q))
  }

  /** The active queue is kept only while it has requests, and a cooperator is found by the next
      request it holds. */
  predicate Allowed(d: Cfqd, v: Verdict) {
    match v
    case Keep => d.active.Some? && d.active.value in d.queues && d.queues[d.active.value].pending.sort != []
    case Cooperate(q) => q in d.queues && d.queues[q].pending.sort != [] && d.active != Some(q)
    case _ => true
  }

  lemma NextGroupBooks(d: Cfqd)
    requires Books(d)
    ensures Books(d.(gt := NextGroup(d.gt).0))
  {
    hide TreesOk, QueueOk, RrOk, Backed, AllRqs, NextGroup, QueuesOf, TreeInv;
    NextGroupKeeps(d.gt);
    var d' := d.(gt := NextGroup(d.gt).0);
    forall g: nat ensures GroupOk(d'.queues, d'.gt.nodes, g, GroupAt(d'.groups, g)) {
      assert GroupOk(d.queues, d.gt.nodes, g, GroupAt(d.groups, g));
    }
  }

  lemma SetActiveBooks(d: Cfqd, q: Option<nat>)
    requires Books(d) && d.active.None? && (q.Some? ==> q.value in d.queues && d.queues[q.value].onRR)
    ensures Books(SetActive(d, q))
  {
    hide AllRqs, RrOk;
    PlacedElse(d, SetActive(d, q));
  }

  /** A queue found on a tree can be served. */
  lemma FoundOnTree(d: Cfqd, t: TreeId)
    requires Books(d) && d.active.None? && TreeFirst(TreeAt(d.trees, t)).Some?
    ensures var q := TreeFirst(TreeAt(d.trees, t)).value;
            q in d.queues && d.queues[q].onRR && d.queues[q].pending.sort != []
  {
    hide TreesOk, GroupsOk, TreeInv, QueuesOk, AllRqs, TreeFirst, OnRr;
    FirstOfTree(d, t);
  }

  /** With no active queue and requests queued, a queue with requests is found. */
  lemma SelectNewFinds(d: Cfqd, running: nat, over: bool)
    requires Books(d) && d.active.None? && d.rqQueued > 0 && running <= SYNC
    ensures var (d', q) := SelectNew(d, running, over);
            && NextGroup(d.gt).1.Some?
            && Books(d') && q.Some? && q.value in d'.queues && d'.queues[q.value].pending.sort != []
            && d'.queues == d.queues && d'.dispatched == d.dispatched && d'.active == q
  {
    hide Books, NextGroup, ChooseKind, TreeFirst;
    GroupTreeNotEmpty(d);
    NextGroupOf(d);
    NextGroupBooks(d);
    var (gt, g) := NextGroup(d.gt);
    var d1 := d.(gt := gt);
    var kind := ChooseKind(d1, g.value, running, over);
    ChooseKindFinds(d1, g.value, running, over);
    FirstExists(d1, TreeId(g.value, kind));
    FoundOnTree(d1, TreeId(g.value, kind));
    SetActiveBooks(d1, NextQueue(d1, g.value, kind));
  }

  /** q is first on its tree, and first of its class unless the running type goes on. */
  ghost predicate FirstInTurn(d: Cfqd, g: nat, running: nat, over: bool, kind: nat, q: nat) {
    && Linked(d.queues, q, TreeId(g, kind))
    && (forall x | Linked(d.queues, x, TreeId(g, kind)) :: Vt(d.keys, q) <= Vt(d.keys, x))
    && (kind < IDLE && (over || !Waiting(d, g, ClassOf(kind) + running)) ==>
          forall k: nat, x | ClassOf(kind) <= k <= ClassOf(kind) + SYNC && Linked(d.queues, x, TreeId(g, k)) ::
            Vt(d.keys, q) <= Vt(d.keys, x))
  }

  ghost predicate LeastServed(gt: GroupTree, g: nat) {
    g in gt.nodes && forall x | x in gt.nodes :: Vt(gt.vt, g) <= Vt(gt.vt, x)
  }

  /** The queue to serve next: of the group that has had the least service, in the highest class the
      group has. */
  ghost predicate InTurn(d: Cfqd, running: nat, over: bool, q: nat) {
    exists g, kind :: LeastServed(d.gt, g) && RightKind(d, g, running, over, kind) && FirstInTurn(d, g, running, over, kind, q)
  }

  /** The first queue of the tree with the lowest first key has the lowest key of the class. */
  lemma LowestOfClass(d: Cfqd, g: nat, prio: nat, w: nat, k: nat, x: nat)
    requires TreesOk(d.queues, d.keys, d.trees) && IsLowest(d, g, prio, SYNC + 1, w)
    requires prio <= k <= prio + SYNC && Linked(d.queues, x, TreeId(g, k))
    ensures KeyOf(d, g, prio, w).value <= Vt(d.keys, x)
  {
    hide TreesOk, TreeFirst, Vt, Linked, LeftOk, NoDup;
    var t := TreeId(g, k);
    OnItsTree(d, t, x);
    FirstOfTree(d, t);
    assert KeyOf(d, g, prio, k - prio) == FirstKey(d, g, k);
  }

  lemma OnItsTree(d: Cfqd, t: TreeId, x: nat)
    requires TreesOk(d.queues, d.keys, d.trees) && Linked(d.queues, x, t)
    ensures x in TreeAt(d.trees, t).nodes && TreeAt(d.trees, t).count > 0
  {
    assert TreeOk(d.queues, d.keys, t, TreeAt(d.trees, t));
  }

  lemma FirstIsInTurn(d: Cfqd, g: nat, running: nat, over: bool, kind: nat)
    requires Books(d) && RightKind(d, g, running, over, kind) && TreeFirst(TreeAt(d.trees, TreeId(g, kind))).Some?
    ensures FirstInTurn(d, g, running, over, kind, TreeFirst(TreeAt(d.trees, TreeId(g, kind))).value)
  {
    hide TreesOk, GroupsOk, TreeInv, QueuesOk, RrOk, Backed, AllRqs, TreeFirst, Linked, Waiting, IsLowest, HighestClass;
    var t := TreeId(g, kind);
    var q := TreeFirst(TreeAt(d.trees, t)).value;
    FirstOfTree(d, t);
    forall x | Linked(d.queues, x, t) ensures Vt(d.keys, q) <= Vt(d.keys, x) {
      OnItsTree(d, t, x);
    }
    if kind < IDLE && (over || !Waiting(d, g, ClassOf(kind) + running)) {
      var prio := ClassOf(kind);
      forall k: nat, x | prio <= k <= prio + SYNC && Linked(d.queues, x, TreeId(g, k))
        ensures Vt(d.keys, q) <= Vt(d.keys, x)
      {
        LowestOfClass(d, g, prio, kind - prio, k, x);
      }
    }
  }

  lemma NextIsLeastServed(d: Cfqd)
    requires Books(d) && d.gt.nodes != []
    ensures NextGroup(d.gt).1.Some? && LeastServed(NextGroup(d.gt).0, NextGroup(d.gt).1.value)
  {
    hide TreesOk, GroupsOk, TreeInv, QueuesOk, RrOk, Backed, AllRqs;
    NextGroupKeeps(d.gt);
  }

  /** cfq_choose_cfqg and cfq_get_next_queue find the queue whose turn it is. */
  lemma SelectNewInTurn(d: Cfqd, running: nat, over: bool)
    requires Books(d) && d.active.None? && d.rqQueued > 0 && running <= SYNC
    ensures var (d', q) := SelectNew(d, running, over); q.Some? && InTurn(d', running, over, q.value)
  {
    hide Books, NextGroup, ChooseKind, TreeFirst, RightKind, FirstInTurn, LeastServed;
    GroupTreeNotEmpty(d);
    NextGroupOf(d);
    NextGroupBooks(d);
    NextIsLeastServed(d);
    var (gt, g) := NextGroup(d.gt);
    var d1 := d.(gt := gt);
    var kind := ChooseKind(d1, g.value, running, over);
    ChooseKindRight(d1, g.value, running, over);
    ChooseKindFinds(d1, g.value, running, over);
    FirstExists(d1, TreeId(g.value, kind));
    FirstIsInTurn(d1, g.value, running, over, kind);
    TurnStays(d1, SelectNew(d, running, over).0, g.value, running, over, kind, SelectNew(d, running, over).1.value);
  }

  lemma TurnStays(d: Cfqd, d': Cfqd, g: nat, running: nat, over: bool, kind: nat, q: nat)
    requires LeastServed(d.gt, g) && RightKind(d, g, running, over, kind) && FirstInTurn(d, g, running, over, kind, q)
    requires d' == SetActive(d, d'.active)
    ensures InTurn(d', running, over, q)
  {
    hide LeastServed, Linked, ClassOf, Vt;
    forall k: nat ensures Waiting(d', g, k) == Waiting(d, g, k) {}
    forall k: nat ensures KeyOf(d', g, ClassOf(kind), k) == KeyOf(d, g, ClassOf(kind), k) {}
    assert RightKind(d', g, running, over, kind) && FirstInTurn(d', g, running, over, kind, q);
  }

  lemma NextGroupOf(d: Cfqd)
    requires Books(d) && d.gt.nodes != []
    ensures NextGroup(d.gt).1.Some? && NextGroup(d.gt).1.value in NextGroup(d.gt).0.nodes
  {
    hide TreesOk, GroupsOk, TreeInv, QueuesOk, RrOk, Backed, AllRqs, NextGroup;
    NextGroupKeeps(d.gt);
  }

  lemma FirstExists(d: Cfqd, t: TreeId)
    requires Books(d) && TreeAt(d.trees, t).count > 0
    ensures TreeFirst(TreeAt(d.trees, t)).Some?
  {
    hide TreesOk, GroupsOk, TreeInv, QueuesOk, RrOk, Backed, AllRqs, TreeFirst;
    FirstOfTree(d, t);
  }

  /** Busy queues without an active one have requests. */
  lemma BusyMeansQueued(d: Cfqd)
    requires Books(d) && d.active.None?
    ensures d.busy > 0 <==> d.rqQueued > 0
  {
    hide Placed;
    if d.busy > 0 || d.rqQueued > 0 {
      var q := SomeOnRr(d);
      var r := d.queues[q].pending.sort[0];
      assert (q, r) in AllRqs(d.queues);
      assert q in OnRr(d.queues);
    }
  }

  lemma CooperateKeeps(d: Cfqd, q: nat, charge: nat, key: int)
    requires Books(d) && d.active.Some? && Allowed(d, Cooperate(q))
    ensures var d' := SetActive(ExpireActive(d, charge, key), Some(q));
            Books(d') && q in d'.queues && d'.queues[q].pending.sort != [] && d'.active == Some(q)
  {
    hide Placed, AllRqs, OnRr, SliceExpired;
    ExpireActiveKeeps(d, charge, key);
    ExpiredQueue(d, d.active.value, charge, key);
    SetActiveBooks(ExpireActive(d, charge, key), Some(q));
  }

  /** Whether the tests of cfq_select_queue lead to a new choice. */
  ghost predicate Choosing(d: Cfqd, v: Verdict) {
    d.active.None? || (d.rqQueued > 0 && v.Expire?)
  }

  /** cfq_select_queue never finds the group tree empty, and the queue it selects has requests. */
  lemma SelectQueueKeeps(d: Cfqd, v: Verdict, charge: nat, key: int, running: nat, over: bool)
    requires Books(d) && d.busy > 0 && Allowed(d, v) && running <= SYNC
    ensures var (d', q) := SelectQueue(d, v, charge, key, running, over);
            && Books(d')
            && (q.Some? ==> d'.active == q && q.value in d'.queues && d'.queues[q.value].pending.sort != [])
            && (Choosing(d, v) ==> q.Some?)
  {
    hide Books, SelectNew, ExpireActive;
    if d.active.None? {
      BusyMeansQueued(d);
      SelectNewFinds(d, running, over);
    } else {
      RqsNotNegative(d);
      if d.rqQueued != 0 && v.Expire? {
        ExpireActiveKeeps(d, charge, key);
        SelectNewFinds(ExpireActive(d, charge, key), running, over);
      } else if d.rqQueued != 0 && v.Cooperate? {
        CooperateKeeps(d, v.q, charge, key);
      }
    }
  }

  lemma RqsNotNegative(d: Cfqd)
    requires Books(d)
    ensures d.rqQueued >= 0
  {
    hide Placed, RrOk, Backed, AllRqs;
  }

  /** A new choice falls on the queue whose turn it is; otherwise the active queue goes on, is waited
      for, or hands over to its cooperator. */
  lemma SelectQueueInTurn(d: Cfqd, v: Verdict, charge: nat, key: int, running: nat, over: bool)
    requires Books(d) && d.busy > 0 && Allowed(d, v) && running <= SYNC
    ensures var (d', q) := SelectQueue(d, v, charge, key, running, over);
            if Choosing(d, v) then q.Some? && InTurn(d', running, over, q.value)
            else if d.rqQueued > 0 && v.Cooperate? then q == Some(v.q)
            else d' == d && q == if d.rqQueued > 0 && v.Keep? then d.active else None
  {
    hide Books, SelectNew, ExpireActive, InTurn, Allowed;
    RqsNotNegative(d);
    if d.active.None? {
      BusyMeansQueued(d);
      SelectNewInTurn(d, running, over);
    } else if d.rqQueued > 0 && v.Expire? {
      ExpireActiveKeeps(d, charge, key);
      SelectNewInTurn(ExpireActive(d, charge, key), running, over);
    }
  }
}
