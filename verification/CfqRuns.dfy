/** CFQ's bookkeeping over whole runs. */
module CfqRuns {
  import opened Common
  import opened RequestTree
  import opened CfqRequests
  import opened CfqGroups
  import opened CfqQueues
  import opened CfqBooks
  import opened CfqSteps
  import opened CfqService
  import opened CfqForced

  /** What may happen to the scheduler.  Keys, charges and the outcomes of time tests are
      arbitrary. */
  datatype Action =
    | Create(q: nat, g: nat, sync: bool)
    | Insert(q: nat, rq: Rq, key: int)
    | PreemptBy(q: nat, charge: nat, key: int, key': int)
    | Dispatch(verdict: Verdict, charge: nat, key: int, running: nat, over: bool, oldest: bool, may: bool)
    | ExpireSlice(charge: nat, key: int)
    | ForceQueue    // the next queue of a forced dispatch becomes active
    | ForceRequest  // and its next request is dispatched
    | Merge(q: nat, rq: Rq, next: Rq)
    | FrontMerge(q: nat, rq: Rq, sector: int)
    | Reclass(q: nat, idleClass: bool, rtClass: bool, idleWindow: bool)
    | Isolate(on: bool)
    | HeadMoved(pos: int)

  predicate Enabled(d: Cfqd, a: Action) {
    match a
    case Create(q, _, _) => q !in d.queues
    case Insert(q, rq, _) => q in d.queues && rq !in d.queues[q].pending.sort
    case PreemptBy(q, _, _, _) => q in d.queues && d.queues[q].pending.sort != [] && d.active != Some(q)
    case Dispatch(v, _, _, running, _, _, _) => d.busy > 0 && Allowed(d, v) && running <= SYNC
    case ForceQueue => d.active.None?
    case Merge(q, rq, next) =>
      q in d.queues && rq in d.queues[q].pending.sort && next in d.queues[q].pending.sort && rq != next
    case FrontMerge(q, rq, sector) =>
      q in d.queues && rq in d.queues[q].pending.sort && rq.(sector := sector) !in d.queues[q].pending.sort
    case Reclass(q, _, _, _) => q in d.queues
    case _ => true
  }

  /** cfq_dispatch_request: the oldest request if it expired, or the next one. */
  function Chosen(p: Pending, oldest: bool): Option<Rq> {
    if oldest && p.fifo != [] then Some(p.fifo[0]) else p.next
  }

  /** cfq_dispatch_requests without force; `may` is the verdict of cfq_may_dispatch. */
  function DispatchOne(d: Cfqd, v: Verdict, charge: nat, key: int, running: nat, over: bool, oldest: bool, may: bool): Cfqd {
    var (d1, q) := SelectQueue(d, v, charge, key, running, over);
    if q.Some? && may && q.value in d1.queues && Chosen(d1.queues[q.value].pending, oldest).Some? then
      DispatchRq(d1, q.value, Chosen(d1.queues[q.value].pending, oldest).value)
    else d1
  }

  /** One round of cfq_forced_dispatch up to __cfq_set_active_queue */
  function ForcedNext(d: Cfqd): Cfqd {
    var (d1, q) := NextForced(d);
    SetActive(d1, q)
  }

  /** One round of __cfq_forced_dispatch_cfqq */
  function ForcedOne(d: Cfqd): Cfqd {
    if d.active.Some? && d.active.value in d.queues && d.queues[d.active.value].pending.next.Some? then
      DispatchRq(d, d.active.value, d.queues[d.active.value].pending.next.value)
    else d
  }

  lemma ForcedKeeps(d: Cfqd)
    requires Books(d)
    ensures d.active.None? ==> Books(ForcedNext(d))
    ensures Books(ForcedOne(d))
  {
    hide Books, NextForced, DispatchRq;
    if d.active.None? {
      NextForcedFinds(d);
      SetActiveBooks(NextForced(d).0, NextForced(d).1);
    } else if d.active.value in d.queues && d.queues[d.active.value].pending.next.Some? {
      NextIsPending(d, d.active.value);
      DispatchRqKeeps(d, d.active.value, d.queues[d.active.value].pending.next.value);
    }
  }

  function Apply(d: Cfqd, a: Action): Cfqd
    requires Enabled(d, a)
  {
    match a
    case Create(q, g, sync) => NewQueue(d, q, g, sync)
    case Insert(q, rq, key) => InsertRq(d, q, rq, key)
    case PreemptBy(q, charge, key, key') => Preempt(d, q, charge, key, key')
    case Dispatch(v, charge, key, running, over, oldest, may) => DispatchOne(d, v, charge, key, running, over, oldest, may)
    case ExpireSlice(charge, key) => ExpireActive(d, charge, key)
    case ForceQueue => ForcedNext(d)
    case ForceRequest => ForcedOne(d)
    case Merge(q, rq, next) => MergeRq(d, q, rq, next)
    case FrontMerge(q, rq, sector) => RepositionRq(d, q, rq, sector)
    case Reclass(q, idleClass, rtClass, idleWindow) => SetFlags(d, q, idleClass, rtClass, idleWindow)
    case Isolate(on) => d.(isolation := on)
    case HeadMoved(pos) => d.(lastPos := pos)
  }

  lemma PreemptKeeps(d: Cfqd, q: nat, charge: nat, key: int, key': int)
    requires Books(d) && q in d.queues && d.queues[q].pending.sort != [] && d.active != Some(q)
    ensures Books(Preempt(d, q, charge, key, key'))
  {
    hide Placed, AllRqs, OnRr, SliceExpired, ServiceTreeAdd;
    ExpireActiveKeeps(d, charge, key);
    var d1 := ExpireActive(d, charge, key);
    if d.active.Some? {
      ExpiredQueue(d, d.active.value, charge, key);
    }
    ServiceTreeAddKeeps(d1, q, key', true);
    var d2 := ServiceTreeAdd(d1, q, key', true);
    OnRrSame(d1.queues, q, d2.queues[q]);
    AllRqsSame(d1.queues, q, d2.queues[q]);
  }

  lemma ChosenIsPending(d: Cfqd, q: nat, oldest: bool)
    requires Books(d) && q in d.queues && d.queues[q].pending.sort != []
    ensures var r := Chosen(d.queues[q].pending, oldest); r.Some? && r.value in d.queues[q].pending.sort
  {
    hide TreesOk, GroupsOk, TreeInv, RrOk, Backed, AllRqs, Ascending, Syncs;
    TidyOf(d, q);
    var p := d.queues[q].pending;
    if oldest && p.fifo != [] {
      assert p.fifo[0] in multiset(p.fifo);
    }
  }

  lemma PendingKnown(d: Cfqd, q: nat)
    requires Books(d) && q in d.queues && d.queues[q].pending.sort != []
    ensures d.queues[q].pending.fifo != [] && d.queues[q].pending.next.Some?
  {
    hide TreesOk, GroupsOk, TreeInv, RrOk, Backed, AllRqs, Ascending, Syncs;
    TidyOf(d, q);
    var p := d.queues[q].pending;
    assert p.sort[0] in multiset(p.sort);
    assert p.sort[0] in multiset(p.fifo);
  }

  lemma DispatchAppends(d: Cfqd, q: nat, rq: Rq)
    requires q in d.queues
    ensures DispatchRq(d, q, rq).dispatched == d.dispatched + [(q, rq)]
  {
  }

  /** The queue selected for a dispatch is not empty, as the BUG_ON demands. */
  lemma DispatchOneKeeps(d: Cfqd, v: Verdict, charge: nat, key: int, running: nat, over: bool, oldest: bool, may: bool)
    requires Books(d) && d.busy > 0 && Allowed(d, v) && running <= SYNC
    ensures Books(DispatchOne(d, v, charge, key, running, over, oldest, may))
    ensures var (d1, q) := SelectQueue(d, v, charge, key, running, over);
            q.Some? ==>
              && q.value in d1.queues && d1.queues[q.value].pending.sort != []
              && d1.queues[q.value].pending.fifo != [] && d1.queues[q.value].pending.next.Some?
              && (may ==>
                    var p := d1.queues[q.value].pending;
                    var r := if oldest then p.fifo[0] else p.next.value;
                    r in p.sort && DispatchOne(d, v, charge, key, running, over, oldest, may).dispatched == d1.dispatched + [(q.value, r)])
  {
    hide Books, SelectQueue, DispatchRq;
    SelectQueueKeeps(d, v, charge, key, running, over);
    var (d1, q) := SelectQueue(d, v, charge, key, running, over);
    if q.Some? {
      PendingKnown(d1, q.value);
      ChosenIsPending(d1, q.value, oldest);
      var r := Chosen(d1.queues[q.value].pending, oldest).value;
      DispatchRqKeeps(d1, q.value, r);
      DispatchAppends(d1, q.value, r);
    }
  }

  lemma TunedKeeps(d: Cfqd, on: bool, pos: int)
    requires Books(d)
    ensures Books(d.(isolation := on)) && Books(d.(lastPos := pos))
  {
    hide Placed, RrOk, Backed, AllRqs;
    PlacedElse(d, d.(isolation := on));
    PlacedElse(d, d.(lastPos := pos));
  }

  lemma StepKeeps(d: Cfqd, a: Action)
    requires Books(d) && Enabled(d, a)
    ensures Books(Apply(d, a))
  {
    hide Books, NewQueue, InsertRq, Preempt, ForcedNext, ForcedOne, DispatchOne, ExpireActive, MergeRq, RepositionRq, SetFlags, Allowed;
    match a
    case Create(q, g, sync) => NewQueueKeeps(d, q, g, sync);
    case Insert(q, rq, key) => InsertRqKeeps(d, q, rq, key);
    case PreemptBy(q, charge, key, key') => PreemptKeeps(d, q, charge, key, key');
    case Dispatch(v, charge, key, running, over, oldest, may) => DispatchOneKeeps(d, v, charge, key, running, over, oldest, may);
    case ExpireSlice(charge, key) => ExpireActiveKeeps(d, charge, key);
    case ForceQueue => ForcedKeeps(d);
    case ForceRequest => ForcedKeeps(d);
    case Merge(q, rq, next) => MergeRqKeeps(d, q, rq, next);
    case FrontMerge(q, rq, sector) => RepositionRqKeeps(d, q, rq, sector);
    case Reclass(q, idleClass, rtClass, idleWindow) => SetFlagsKeeps(d, q, idleClass, rtClass, idleWindow);
    case Isolate(on) => TunedKeeps(d, on, 0);
    case HeadMoved(pos) => TunedKeeps(d, true, pos);
  }

  function Init(weight: map<nat, nat>, t: Tuning): Cfqd {
    Cfqd(map[], map[], map[], map[], GroupTree([], None, None, 0, map[], weight), 0, 0, None, true, 0, t, [])
  }

  lemma InitKeeps(weight: map<nat, nat>, t: Tuning)
    ensures Books(Init(weight, t))
  {
    var d := Init(weight, t);
    forall x: TreeId ensures TreeOk(d.queues, d.keys, x, TreeAt(d.trees, x)) {
      assert forall q :: !Linked(d.queues, q, x);
    }
    forall g: nat ensures GroupOk(d.queues, d.gt.nodes, g, GroupAt(d.groups, g)) {
      assert QueuesOf(d.queues, g) == {};
    }
    assert OnRr(d.queues) == {} && AllRqs(d.queues) == {};
  }

  ghost predicate IsRun(ds: seq<Cfqd>, acts: seq<Action>) {
    && |ds| == |acts| + 1
    && (exists weight, t :: ds[0] == Init(weight, t))
    && (forall i | 0 <= i < |acts| :: Enabled(ds[i], acts[i]) && ds[i + 1] == Apply(ds[i], acts[i]))
  }

  lemma {:induction false} RunKeeps(ds: seq<Cfqd>, acts: seq<Action>, i: nat)
    requires IsRun(ds, acts) && i <= |acts|
    ensures Books(ds[i])
  {
    hide Books, Enabled, Apply, Init;
    if i == 0 {
      var weight, t :| ds[0] == Init(weight, t);
      InitKeeps(weight, t);
    } else {
      RunKeeps(ds, acts, i - 1);
      StepKeeps(ds[i - 1], acts[i - 1]);
    }
  }

  /** CFQ bookkeeping, in every state of every run. */
  lemma CountersAgree(ds: seq<Cfqd>, acts: seq<Action>, i: nat, g: nat)
    requires IsRun(ds, acts) && i <= |acts|
    ensures var d := ds[i];
            && d.busy == |OnRr(d.queues)|
            && d.rqQueued == |AllRqs(d.queues)|
            && GroupAt(d.groups, g).nrCfqq == |QueuesOf(d.queues, g)| == SumCounts(d, g, 7)
            && (g in d.gt.nodes <==> GroupAt(d.groups, g).nrCfqq > 0)
            && GroupAt(d.groups, g).nrCfqq - (Count(d, g, RT + ASYNC) + Count(d, g, BE + ASYNC)) - Count(d, g, IDLE) >= 0
            && (forall q | q in d.queues && d.queues[q].onRR && d.active != Some(q) :: d.queues[q].pending.sort != [])
  {
    assert |ds| == |acts| + 1;
    hide TreesOk, TreeInv, QueuesOk, OnRr, AllRqs, QueuesOf, SumCounts, Count, IsRun;
    RunKeeps(ds, acts, i);
    var d := ds[i];
    assert GroupOk(d.queues, d.gt.nodes, g, GroupAt(d.groups, g));
    SevenTrees(d, g);
    SyncNotNegative(d, g);
  }

  // ---------------------------------------------------------------------------
  // min_vdisktime
  // ---------------------------------------------------------------------------

  lemma GroupOpsMin(d: Cfqd, g: nat)
    ensures GroupAdd(d, g).gt.minVt == d.gt.minVt && GroupDel(d, g).gt.minVt == d.gt.minVt
  {
    hide Place, Erase, Vt;
  }

  lemma ServiceTreeAddMin(d: Cfqd, q: nat, key: int, front: bool)
    requires q in d.queues
    ensures ServiceTreeAdd(d, q, key, front).gt.minVt == d.gt.minVt
  {
    hide GroupAdd, GroupDel, Regrouped, KindOf, TreeLink, TreesWithout, Vt;
    var c := d.queues[q];
    var c1 := Regrouped(c, d.isolation);
    GroupOpsMin(d, c.group);
    var d1 := if c1 != c && c.tree.Some? then GroupDel(d, c.group) else d;
    GroupOpsMin(Relinked(d1, q, c.tree, c1, TreeId(c1.group, KindOf(c1)), key), c1.group);
  }

  lemma ResortMin(d: Cfqd, q: nat, key: int)
    requires q in d.queues
    ensures Resort(d, q, key).gt.minVt == d.gt.minVt
  {
    hide ServiceTreeAdd;
    ServiceTreeAddMin(d, q, key, false);
  }

  lemma AddRrMin(d: Cfqd, q: nat, key: int)
    requires q in d.queues
    ensures AddRr(d, q, key).gt.minVt == d.gt.minVt
  {
    hide Resort;
    ResortMin(d.(queues := d.queues[q := d.queues[q].(onRR := true)], busy := d.busy + 1), q, key);
  }

  lemma DelRrMin(d: Cfqd, q: nat)
    requires q in d.queues
    ensures DelRr(d, q).gt.minVt == d.gt.minVt
  {
    hide GroupDel, TreesWithout;
    var c := d.queues[q];
    GroupOpsMin(d.(queues := d.queues[q := c.(onRR := false, tree := None)], trees := TreesWithout(d.trees, c.tree, q)), c.group);
  }

  lemma ServeMin(t: GroupTree, g: nat, charge: nat)
    ensures Serve(t, g, charge).minVt == t.minVt
  {
    hide Place, Erase, ScaleSlice, Weight;
  }

  lemma ExpireMin(d: Cfqd, charge: nat, key: int)
    ensures ExpireActive(d, charge, key).gt.minVt == d.gt.minVt
  {
    hide Serve, DelRr, Resort;
    if d.active.Some? && d.active.value in d.queues {
      var q := d.active.value;
      var c := d.queues[q];
      var d1 := d.(gt := Serve(d.gt, c.group, charge));
      ServeMin(d.gt, c.group, charge);
      DelRrMin(d1, q);
      var d2 := if c.onRR && c.pending.sort == [] then DelRr(d1, q) else d1;
      if q in d2.queues {
        ResortMin(d2, q, key);
      }
    }
  }

  lemma InsertMin(d: Cfqd, q: nat, rq: Rq, key: int)
    requires q in d.queues
    ensures InsertRq(d, q, rq, key).gt.minVt == d.gt.minVt
  {
    hide AddRr, Enqueue, Alias;
    var p := d.queues[q].pending;
    var d1 := AliasLeaves(SetPending(d, q, Enqueue(p, rq, d.lastPos, d.tuning)), q, Alias(p.sort, rq.sector));
    AddRrMin(d1, q, key);
  }

  lemma SelectMin(d: Cfqd, v: Verdict, charge: nat, key: int, running: nat, over: bool)
    requires Books(d)
    ensures d.gt.minVt <= SelectQueue(d, v, charge, key, running, over).0.gt.minVt
  {
    hide ExpireActive, ChooseKind, NextQueue, NextGroup, Books;
    ExpireMin(d, charge, key);
    ExpireActiveKeeps(d, charge, key);
    NextMin(d);
    NextMin(ExpireActive(d, charge, key));
  }

  lemma NextMin(d: Cfqd)
    requires Books(d)
    ensures d.gt.minVt <= NextGroup(d.gt).0.minVt
  {
    hide TreesOk, GroupsOk, QueuesOk, RrOk, Backed, AllRqs, NextGroup, TreeInv;
    NextGroupKeeps(d.gt);
  }

  lemma PreemptMin(d: Cfqd, q: nat, charge: nat, key: int, key': int)
    ensures Preempt(d, q, charge, key, key').gt.minVt == d.gt.minVt
  {
    hide ExpireActive, ServiceTreeAdd;
    ExpireMin(d, charge, key);
    var d1 := ExpireActive(d, charge, key);
    if q in d1.queues {
      ServiceTreeAddMin(d1, q, key', true);
    }
  }

  lemma StepMin(d: Cfqd, a: Action)
    requires Books(d) && Enabled(d, a)
    ensures d.gt.minVt <= Apply(d, a).gt.minVt
  {
    hide Books, InsertRq, Preempt, SelectQueue, ExpireActive, Allowed, Chosen, NextGroup, FirstQueue,
         DispatchInsert, MergeAway, Reposition, Alias, Erase;
    match a
    case Insert(q, rq, key) => InsertMin(d, q, rq, key);
    case PreemptBy(q, charge, key, key') => PreemptMin(d, q, charge, key, key');
    case Dispatch(v, charge, key, running, over, _, _) => SelectMin(d, v, charge, key, running, over);
    case ExpireSlice(charge, key) => ExpireMin(d, charge, key);
    case ForceQueue => NextMin(d);
    case _ =>
  }

  /** min_vdisktime never decreases over any part of any run, and never exceeds the vdisktime of a
      queued group. */
  lemma {:induction false} MinVdisktime(ds: seq<Cfqd>, acts: seq<Action>, i: nat, j: nat)
    requires IsRun(ds, acts) && i <= j <= |acts|
    ensures ds[i].gt.minVt <= ds[j].gt.minVt
    ensures forall g | g in ds[i].gt.nodes :: ds[i].gt.minVt <= Vt(ds[i].gt.vt, g)
    decreases j - i
  {
    hide Apply, Enabled, TreesOk, GroupsOk, QueuesOk, RrOk, Backed, AllRqs, NoDup, ByTime;
    RunKeeps(ds, acts, i);
    if i < j {
      RunEnabled(ds, acts, i);
      StepMin(ds[i], acts[i]);
      MinVdisktime(ds, acts, i + 1, j);
    }
  }

  /** cfq_choose_cfqg, whenever it is called, finds a group, and cfq_select_queue then finds a
      queue with requests. */
  lemma SelectionFinds(ds: seq<Cfqd>, acts: seq<Action>, i: nat)
    requires IsRun(ds, acts) && i < |acts| && acts[i].Dispatch?
    ensures var a, d := acts[i], ds[i];
            var d1 := if d.active.None? then d else ExpireActive(d, a.charge, a.key);
            var (d2, q) := SelectQueue(d, a.verdict, a.charge, a.key, a.running, a.over);
            Choosing(d, a.verdict) ==> d1.gt.nodes != [] && q.Some? && q.value in d2.queues && d2.queues[q.value].pending.sort != []
  {
    assert |ds| == |acts| + 1;
    hide Books, SelectQueue, ExpireActive, IsRun, Apply;
    RunKeeps(ds, acts, i);
    var a, d := acts[i], ds[i];
    assert Enabled(d, a) by { RunEnabled(ds, acts, i); }
    SelectQueueKeeps(d, a.verdict, a.charge, a.key, a.running, a.over);
    if d.active.None? {
      GroupTreeNotEmpty(d);
    } else if d.rqQueued > 0 {
      ExpireActiveKeeps(d, a.charge, a.key);
      GroupTreeNotEmpty(ExpireActive(d, a.charge, a.key));
    }
  }

  /** In every run a new choice falls on the queue whose turn it is: of the group with the least
      service, in its highest class. */
  lemma SelectionInTurn(ds: seq<Cfqd>, acts: seq<Action>, i: nat)
    requires IsRun(ds, acts) && i < |acts| && acts[i].Dispatch?
    ensures var a, d := acts[i], ds[i];
            var (d', q) := SelectQueue(d, a.verdict, a.charge, a.key, a.running, a.over);
            Choosing(d, a.verdict) ==> q.Some? && InTurn(d', a.running, a.over, q.value)
  {
    hide Books, SelectQueue, IsRun, Apply, InTurn, Choosing;
    RunLength(ds, acts);
    RunKeeps(ds, acts, i);
    var a, d := acts[i], ds[i];
    RunEnabled(ds, acts, i);
    SelectQueueInTurn(d, a.verdict, a.charge, a.key, a.running, a.over);
  }

  lemma RunLength(ds: seq<Cfqd>, acts: seq<Action>)
    requires IsRun(ds, acts)
    ensures |ds| == |acts| + 1
  {
  }

  lemma RunEnabled(ds: seq<Cfqd>, acts: seq<Action>, i: nat)
    requires IsRun(ds, acts) && i < |acts|
    ensures Enabled(ds[i], acts[i])
  {
  }
}
