/** Which request the deadline scheduler dispatches next. */
module DeadlineOrder {
  import opened Common
  import opened RequestTree
  import opened Deadline
  import opened DeadlineRuns

  // ---------------------------------------------------------------------------
  // Reads are preferred
  // ---------------------------------------------------------------------------

  /** How many batches of reads were started, with a write pending, since the last batch of writes:
      from the history of calls, not from the scheduler's own count. */
  ghost function PassedOver(c: Config, ds: seq<Data>, acts: seq<Action>, i: nat): nat
    requires i <= |acts| < |ds|
  {
    if i == 0 then 0
    else
      var d := ds[i - 1];
      var n := PassedOver(c, ds, acts, i - 1);
      if !acts[i - 1].Call? || InBatch(c, d) || Sent(c, d).None? then n
      else if Sent(c, d).value.write then 0
      else if d.write.fifo != [] then n + 1 else n
  }

  lemma {:induction false} StarvedCounts(c: Config, ds: seq<Data>, acts: seq<Action>, i: nat)
    requires IsRun(c, ds, acts) && i <= |acts|
    ensures ds[i].starved == PassedOver(c, ds, acts, i) <= c.writesStarved
  {
    hide Inv, Enabled, DispatchOne, AddRequest, FrontMerged, MergedRequests, StartBatch, InBatch;
    RunKeeps(c, ds, acts, i);
    InvStarved(c, ds[i]);
    if i > 0 {
      StarvedCounts(c, ds, acts, i - 1);
      RunKeeps(c, ds, acts, i - 1);
      if acts[i - 1].Call? {
        CallCases(c, ds[i - 1]);
        NoneSent(c, ds[i - 1]);
      } else {
        IdleSame(c, ds[i - 1], acts[i - 1]);
      }
    }
  }

  lemma NoneSent(c: Config, d: Data)
    ensures DispatchOne(c, d).0 == d ==> Sent(c, d).None?
  {
  }

  /** A call that starts a batch serves reads while there are any, unless writes are pending and
      have been passed over writes_starved times. */
  lemma ReadsFirst(c: Config, ds: seq<Data>, acts: seq<Action>, i: nat)
    requires IsRun(c, ds, acts) && i < |acts| && acts[i].Call? && !InBatch(c, ds[i])
    ensures var d, rq := ds[i], Sent(c, ds[i]);
            && (rq.None? <==> d.read.fifo == [] && d.write.fifo == [])
            && (rq.Some? ==>
                  (rq.value.write <==> d.write.fifo != []
                                       && (d.read.fifo == [] || PassedOver(c, ds, acts, i) == c.writesStarved)))
  {
    hide Inv, DispatchOne, StartBatch, InBatch, PassedOver;
    StarvedCounts(c, ds, acts, i);
    RunKeeps(c, ds, acts, i);
    CallCases(c, ds[i]);
    NoneSent(c, ds[i]);
  }

  // ---------------------------------------------------------------------------
  // What a batch is
  // ---------------------------------------------------------------------------

  ghost function Key(r: Rq): (bool, nat) {
    (r.write, r.id)
  }

  /** The requests added, or given a new first sector, since the last dispatch. */
  ghost function Late(ds: seq<Data>, acts: seq<Action>, i: nat): set<(bool, nat)>
    requires i <= |acts| < |ds|
  {
    if i == 0 || |ds[i].dispatch| > |ds[i - 1].dispatch| then {}
    else
      match acts[i - 1]
      case Add(rq) => Late(ds, acts, i - 1) + {Key(rq)}
      case Front(rq, _) => Late(ds, acts, i - 1) + {Key(rq)}
      case _ => Late(ds, acts, i - 1)
  }

  /** next_rq is in the direction of the last dispatch, and nothing that was pending then and is
      above it comes before next_rq. */
  ghost predicate Sweeps(d: Data, late: set<(bool, nat)>) {
    if d.dispatch == [] then d.read.next.None? && d.write.next.None?
    else
      var last := d.dispatch[|d.dispatch| - 1];
      && LaneOf(d, !last.write).next.None?
      && SweepsLane(LaneOf(d, last.write), last.sector, late)
  }

  ghost predicate SweepsLane(l: Lane, sector: int, late: set<(bool, nat)>) {
    forall r | r in l.sort && r.sector > sector && Key(r) !in late :: l.next.Some? && l.next.value.sector <= r.sector
  }

  lemma SuccessorIsNext(t: seq<Rq>, x: Rq, r: Rq)
    requires Ascending(t) && x in t && r in t && r.sector > x.sector
    ensures Successor(t, x).Some? && x.sector < Successor(t, x).value.sector <= r.sector
  {
    var i := IndexOf(t, x);
    var k :| 0 <= k < |t| && t[k] == r;
    assert k > i;
  }

  /** A dispatch starts a new sweep from its sector. */
  lemma MoveSweeps(c: Config, d: Data, rq: Rq)
    requires Ascending(LaneOf(d, rq.write).sort) && rq in LaneOf(d, rq.write).sort
    ensures Sweeps(MoveRequest(d, rq), {})
    ensures var d' := MoveRequest(d, rq); forall r | r in LaneOf(d', rq.write).sort :: r in LaneOf(d, rq.write).sort
  {
    hide Ascending, Successor, Erase;
    var t := LaneOf(d, rq.write).sort;
    EraseMembers(t, rq);
    OtherSuccessor(t, rq);
    forall r | r in t && r.sector > rq.sector ensures Successor(t, rq).Some? && Successor(t, rq).value.sector <= r.sector {
      SuccessorIsNext(t, rq, r);
    }
  }

  lemma OtherSuccessor(t: seq<Rq>, rq: Rq)
    requires Ascending(t) && rq in t
    ensures Successor(t, rq) != Some(rq)
  {
  }

  lemma LaneSweepsMore(l: Lane, sector: int, late: set<(bool, nat)>, rq: Rq)
    requires SweepsLane(l, sector, late)
    ensures SweepsLane(l.(sort := Insert(l.sort, rq)), sector, late + {Key(rq)})
    ensures rq.sector <= sector ==> SweepsLane(l.(sort := Insert(l.sort, rq)), sector, late)
  {
    hide Insert, Key;
    InsertHas(l.sort, rq);
  }

  /** A request joins the tree: if it takes the place of another, which is dispatched, it is not
      above that one. */
  lemma AddSortedSweeps(c: Config, d: Data, rq: Rq, late: set<(bool, nat)>)
    requires Ascending(LaneOf(d, rq.write).sort) && forall r | r in LaneOf(d, rq.write).sort :: r.write == rq.write
    requires Sweeps(d, late)
    ensures var d' := AddSorted(d, rq);
            if |d'.dispatch| > |d.dispatch| then Sweeps(d', {}) else d'.dispatch == d.dispatch && Sweeps(d', late + {Key(rq)})
  {
    hide Ascending, Insert, Alias, MoveRequest, SweepsLane, Key;
    var alias := Alias(LaneOf(d, rq.write).sort, rq.sector);
    if alias.Some? {
      var d1 := MoveRequest(d, alias.value);
      MoveSweeps(c, d, alias.value);
      MoveSame(d, alias.value);
      LaneSweepsMore(LaneOf(d1, rq.write), rq.sector, {}, rq);
    } else if d.dispatch != [] {
      var last := d.dispatch[|d.dispatch| - 1];
      if last.write == rq.write {
        LaneSweepsMore(LaneOf(d, rq.write), last.sector, late, rq);
      } else {
        MoreLate(LaneOf(d, last.write), last.sector, late, Key(rq));
      }
    }
  }

  lemma MoreLate(l: Lane, sector: int, late: set<(bool, nat)>, k: (bool, nat))
    requires SweepsLane(l, sector, late)
    ensures SweepsLane(l, sector, late + {k})
  {
  }

  lemma AddSweeps(c: Config, d: Data, rq: Rq, late: set<(bool, nat)>)
    requires Inv(c, d) && Sweeps(d, late)
    ensures var d' := AddRequest(c, d, rq);
            if |d'.dispatch| > |d.dispatch| then Sweeps(d', {}) else Sweeps(d', late + {Key(rq)})
  {
    hide Inv, AddSorted, Ascending;
    SortedLane(c, d, rq.write);
    AddSortedSweeps(c, d, Timed(c, d, rq), late);
  }

  lemma FrontSweeps(c: Config, d: Data, rq: Rq, sector: int, late: set<(bool, nat)>)
    requires Inv(c, d) && rq in LaneOf(d, rq.write).sort && sector <= rq.sector && Sweeps(d, late)
    ensures var d' := FrontMerged(d, rq, sector);
            if |d'.dispatch| > |d.dispatch| then Sweeps(d', {}) else Sweeps(d', late + {Key(rq)})
  {
    hide Inv, AddSorted, Ascending, Erase, Subst;
    SortedLane(c, d, rq.write);
    EraseKeeps(LaneOf(d, rq.write).sort, rq);
    EraseMembers(LaneOf(d, rq.write).sort, rq);
    var u := Unsorted(d, rq, sector);
    assert Sweeps(u, late);
    AddSortedSweeps(c, u, rq.(sector := sector), late);
  }

  /** An absorbed next_rq hands over to the request behind it. */
  lemma MergeSweeps(c: Config, d: Data, rq: Rq, next: Rq, late: set<(bool, nat)>)
    requires Inv(c, d) && rq in LaneOf(d, rq.write).sort && next in LaneOf(d, rq.write).sort && rq != next && Sweeps(d, late)
    ensures Sweeps(MergedRequests(d, rq, next), late)
  {
    hide Inv, Ascending, Erase, Subst, SweepsLane, MergedLane;
    SortedLane(c, d, rq.write);
    if d.dispatch != [] {
      var last := d.dispatch[|d.dispatch| - 1];
      if last.write == rq.write {
        MergedLaneSweeps(LaneOf(d, rq.write), rq, next, last.sector, late);
      } else {
        MergedNone(LaneOf(d, rq.write), rq, next);
      }
    } else {
      MergedNone(LaneOf(d, rq.write), rq, next);
    }
  }

  lemma MergedNone(l: Lane, rq: Rq, next: Rq)
    ensures l.next.None? ==> MergedLane(l, rq, next).next.None?
  {
  }

  lemma MergedLaneSweeps(l: Lane, rq: Rq, next: Rq, sector: int, late: set<(bool, nat)>)
    requires Ascending(l.sort) && rq in l.sort && next in l.sort && rq != next && SweepsLane(l, sector, late)
    ensures SweepsLane(MergedLane(l, rq, next), sector, late)
  {
    hide Ascending, Erase, Subst, Successor;
    var rq' := if next.expires < rq.expires then rq.(expires := next.expires) else rq;
    MergedSortOk(l, rq, next, rq');
    var l' := MergedLane(l, rq, next);
    forall r | r in l'.sort && r.sector > sector && Key(r) !in late
      ensures l'.next.Some? && l'.next.value.sector <= r.sector
    {
      var r0 := if r == rq' then rq else r;
      assert r0 in l.sort && r0 != next && r0.sector == r.sector && Key(r0) !in late;
      if l.next == Some(next) {
        Apart(l.sort, next, r0);
        SuccessorIsNext(l.sort, next, r0);
      }
    }
  }

  lemma Apart(t: seq<Rq>, x: Rq, y: Rq)
    requires Ascending(t) && x in t && y in t && x != y
    ensures x.sector != y.sector
  {
  }

  lemma StartSweeps(c: Config, d: Data, write: bool)
    requires Inv(c, d) && Fifo(d, write) != []
    ensures var d' := StartBatch(d, write).0; |d'.dispatch| > |d.dispatch| && Sweeps(d', {})
  {
    hide LaneOk, MoveRequest, FindRequest, Sweeps, Ascending;
    SortedLane(c, d, write);
    LaneInv(c, d, write);
    FindsPending(LaneOf(d, write), write, Latest(c, d, write), d.now);
    var rq := FindRequest(LaneOf(d, write), d.now).value;
    MoveSweeps(c, d.(batching := 1), rq);
    MoveSame(d.(batching := 1), rq);
  }

  lemma CallSweeps(c: Config, d: Data, late: set<(bool, nat)>)
    requires Inv(c, d) && Sweeps(d, late)
    ensures var d' := DispatchOne(c, d).0; if |d'.dispatch| > |d.dispatch| then Sweeps(d', {}) else d' == d
  {
    hide LaneOk, MoveRequest, StartBatch, Sweeps, Ascending;
    NextPending(c, d);
    SortedLane(c, d, true);
    SortedLane(c, d, false);
    var rq := if d.write.next.Some? then d.write.next else d.read.next;
    if rq.Some? && d.batching < c.fifoBatch {
      MoveSweeps(c, d.(batching := d.batching + 1), rq.value);
      MoveSame(d.(batching := d.batching + 1), rq.value);
    } else if d.read.fifo != [] && d.write.fifo != [] && d.starved < c.writesStarved {
      StartSweeps(c, d.(starved := d.starved + 1), false);
    } else if d.read.fifo != [] && d.write.fifo == [] {
      StartSweeps(c, d, false);
    } else if d.write.fifo != [] {
      StartSweeps(c, d.(starved := 0), true);
    }
  }

  /** A front merge moves the first sector of a request down. */
  ghost predicate Lowers(a: Action) {
    a.Front? ==> a.sector <= a.rq.sector
  }

  lemma {:induction false} RunSweeps(c: Config, ds: seq<Data>, acts: seq<Action>, i: nat)
    requires IsRun(c, ds, acts) && i <= |acts| && forall k | 0 <= k < i :: Lowers(acts[k])
    ensures Sweeps(ds[i], Late(ds, acts, i))
  {
    hide Inv, AddRequest, FrontMerged, MergedLane, DispatchOne, Sweeps;
    if i == 0 {
      NothingSent();
    } else {
      RunSweeps(c, ds, acts, i - 1);
      RunKeeps(c, ds, acts, i - 1);
      var d, late := ds[i - 1], Late(ds, acts, i - 1);
      match acts[i - 1]
      case Add(rq) => AddSweeps(c, d, rq, late);
      case Front(rq, sector) =>
        assert Lowers(acts[i - 1]);
        FrontSweeps(c, d, rq, sector, late);
      case Merge(rq, next) => MergeSweeps(c, d, rq, next, late);
      case Tick(ticks) => TickSweeps(d, d.now + ticks, late);
      case Call => CallSweeps(c, d, late);
    }
  }

  lemma NothingSent()
    ensures Sweeps(Init(), {})
  {
  }

  lemma TickSweeps(d: Data, now: int, late: set<(bool, nat)>)
    requires Sweeps(d, late)
    ensures Sweeps(d.(now := now), late)
  {
  }

  /** Whether a front merge has come since the last dispatch. */
  ghost predicate Fronted(ds: seq<Data>, acts: seq<Action>, i: nat)
    requires i <= |acts| < |ds|
  {
    i > 0 && |ds[i].dispatch| == |ds[i - 1].dispatch| && (acts[i - 1].Front? || Fronted(ds, acts, i - 1))
  }

  /** next_rq is above the last request dispatched. */
  ghost predicate Upwards(d: Data) {
    d.dispatch != [] ==>
      var last := d.dispatch[|d.dispatch| - 1];
      LaneOf(d, last.write).next.Some? ==> LaneOf(d, last.write).next.value.sector > last.sector
  }

  lemma MoveUpwards(d: Data, rq: Rq)
    requires Ascending(LaneOf(d, rq.write).sort) && rq in LaneOf(d, rq.write).sort
    ensures Upwards(MoveRequest(d, rq))
  {
    hide Erase;
    OtherSuccessor(LaneOf(d, rq.write).sort, rq);
  }

  lemma AddSortedUpwards(c: Config, d: Data, rq: Rq)
    requires Ascending(LaneOf(d, rq.write).sort) && forall r | r in LaneOf(d, rq.write).sort :: r.write == rq.write
    ensures var d' := AddSorted(d, rq);
            if |d'.dispatch| > |d.dispatch| then Upwards(d') else d'.dispatch == d.dispatch && (Upwards(d) ==> Upwards(d'))
  {
    hide Ascending, Insert, Alias, MoveRequest;
    var alias := Alias(LaneOf(d, rq.write).sort, rq.sector);
    if alias.Some? {
      MoveUpwards(d, alias.value);
      MoveSame(d, alias.value);
    }
  }

  lemma MergeUpwards(c: Config, d: Data, rq: Rq, next: Rq)
    requires Inv(c, d) && rq in LaneOf(d, rq.write).sort && next in LaneOf(d, rq.write).sort && Upwards(d)
    ensures Upwards(MergedRequests(d, rq, next))
  {
    hide Inv, Erase, Subst;
    SortedLane(c, d, rq.write);
  }

  lemma CallUpwards(c: Config, d: Data)
    requires Inv(c, d)
    ensures var d' := DispatchOne(c, d).0; if |d'.dispatch| > |d.dispatch| then Upwards(d') else d' == d
  {
    hide LaneOk, MoveRequest, StartBatch, Upwards, Ascending;
    NextPending(c, d);
    SortedLane(c, d, true);
    SortedLane(c, d, false);
    var rq := if d.write.next.Some? then d.write.next else d.read.next;
    if rq.Some? && d.batching < c.fifoBatch {
      MoveUpwards(d.(batching := d.batching + 1), rq.value);
      MoveSame(d.(batching := d.batching + 1), rq.value);
    } else if d.read.fifo != [] && d.write.fifo != [] && d.starved < c.writesStarved {
      StartUpwards(c, d.(starved := d.starved + 1), false);
    } else if d.read.fifo != [] && d.write.fifo == [] {
      StartUpwards(c, d, false);
    } else if d.write.fifo != [] {
      StartUpwards(c, d.(starved := 0), true);
    }
  }

  lemma StartUpwards(c: Config, d: Data, write: bool)
    requires Inv(c, d) && Fifo(d, write) != []
    ensures var d' := StartBatch(d, write).0; |d'.dispatch| > |d.dispatch| && Upwards(d')
  {
    hide LaneOk, MoveRequest, FindRequest, Upwards, Ascending;
    SortedLane(c, d, write);
    LaneInv(c, d, write);
    FindsPending(LaneOf(d, write), write, Latest(c, d, write), d.now);
    var rq := FindRequest(LaneOf(d, write), d.now).value;
    MoveUpwards(d.(batching := 1), rq);
    MoveSame(d.(batching := 1), rq);
  }

  lemma {:induction false} RunUpwards(c: Config, ds: seq<Data>, acts: seq<Action>, i: nat)
    requires IsRun(c, ds, acts) && i <= |acts|
    ensures Fronted(ds, acts, i) || Upwards(ds[i])
  {
    hide Inv, AddSorted, MergedLane, DispatchOne, Ascending, Erase, Subst;
    if i > 0 {
      RunUpwards(c, ds, acts, i - 1);
      RunKeeps(c, ds, acts, i - 1);
      var d := ds[i - 1];
      match acts[i - 1]
      case Add(rq) =>
        SortedLane(c, d, rq.write);
        AddSortedUpwards(c, d, Timed(c, d, rq));
      case Front(rq, sector) =>
        SortedLane(c, d, rq.write);
        EraseKeeps(LaneOf(d, rq.write).sort, rq);
        EraseMembers(LaneOf(d, rq.write).sort, rq);
        AddSortedUpwards(c, Unsorted(d, rq, sector), rq.(sector := sector));
      case Merge(rq, next) =>
        if Upwards(d) {
          MergeUpwards(c, d, rq, next);
        }
      case Tick(_) =>
      case Call => CallUpwards(c, d);
    }
  }

  /** x continues the sweep: it is in the direction of the last dispatch; nothing that was pending
      then, and is above the last sector, is below x; and x is above it, front merges aside. */
  ghost predicate NextUp(d: Data, late: set<(bool, nat)>, fronted: bool, x: Rq) {
    && d.dispatch != []
    && var last := d.dispatch[|d.dispatch| - 1];
       && x.write == last.write && x in LaneOf(d, x.write).sort
       && (forall r | r in LaneOf(d, x.write).sort && r.sector > last.sector && Key(r) !in late :: x.sector <= r.sector)
       && (!fronted ==> x.sector > last.sector)
  }

  lemma NextIsUp(c: Config, d: Data, late: set<(bool, nat)>, fronted: bool, write: bool)
    requires Inv(c, d) && Sweeps(d, late) && (fronted || Upwards(d)) && LaneOf(d, write).next.Some?
    ensures NextUp(d, late, fronted, LaneOf(d, write).next.value)
  {
    hide LaneOk;
    NextPending(c, d);
  }

  lemma InBatchSends(c: Config, d: Data)
    requires InBatch(c, d)
    ensures Sent(c, d) == if d.write.next.Some? then d.write.next else d.read.next
  {
    hide MoveRequest;
    var rq := if d.write.next.Some? then d.write.next else d.read.next;
    MoveSame(d.(batching := d.batching + 1), rq.value);
  }

  /** Within a batch requests go out by ascending sector, in one direction. */
  lemma BatchGoesUp(c: Config, ds: seq<Data>, acts: seq<Action>, i: nat)
    requires IsRun(c, ds, acts) && i < |acts| && acts[i].Call? && InBatch(c, ds[i]) && forall k | 0 <= k < i :: Lowers(acts[k])
    ensures Sent(c, ds[i]).Some? && NextUp(ds[i], Late(ds, acts, i), Fronted(ds, acts, i), Sent(c, ds[i]).value)
  {
    hide Inv, Sweeps, Upwards, NextUp, Sent, Lowers, Enabled, Apply;
    RunKeeps(c, ds, acts, i);
    RunSweeps(c, ds, acts, i);
    RunUpwards(c, ds, acts, i);
    InBatchSends(c, ds[i]);
    if ds[i].write.next.Some? {
      NextIsUp(c, ds[i], Late(ds, acts, i), Fronted(ds, acts, i), true);
    } else {
      NextIsUp(c, ds[i], Late(ds, acts, i), Fronted(ds, acts, i), false);
    }
  }

  /** x is the pending request next above the last one dispatched. */
  ghost predicate NextAbove(d: Data, x: Rq) {
    && d.dispatch != []
    && var last := d.dispatch[|d.dispatch| - 1];
       forall r | r in LaneOf(d, x.write).sort && r.sector > last.sector :: x.sector <= r.sector
  }

  /** Something that came after the last dispatch lies between it and x. */
  ghost predicate CutIn(d: Data, late: set<(bool, nat)>, x: Rq) {
    && d.dispatch != []
    && var last := d.dispatch[|d.dispatch| - 1];
       exists r :: r in LaneOf(d, x.write).sort && last.sector < r.sector < x.sector && Key(r) in late
  }

  /** Within a batch the request next above the last goes out if and only if none that came since
      lies between. */
  lemma NextAboveIff(c: Config, ds: seq<Data>, acts: seq<Action>, i: nat)
    requires IsRun(c, ds, acts) && i < |acts| && acts[i].Call? && InBatch(c, ds[i]) && forall k | 0 <= k < i :: Lowers(acts[k])
    ensures Sent(c, ds[i]).Some?
    ensures NextAbove(ds[i], Sent(c, ds[i]).value) <==> !CutIn(ds[i], Late(ds, acts, i), Sent(c, ds[i]).value)
  {
    hide Sent, Late, Fronted, Apply, Enabled, InBatch;
    BatchGoesUp(c, ds, acts, i);
  }

  ghost predicate Oldest(f: seq<Rq>, x: Rq) {
    x in f && forall r | r in f :: x.expires <= r.expires
  }

  ghost predicate SomeExpired(f: seq<Rq>, now: int) {
    exists r :: r in f && r.expires < now
  }

  lemma StartSends(c: Config, d: Data, n: nat, write: bool)
    requires Inv(c, d) && Fifo(d, write) != []
    ensures var d' := StartBatch(d.(starved := n), write).0;
            && |d'.dispatch| > |d.dispatch|
            && FindRequest(LaneOf(d, write), d.now) == Some(d'.dispatch[|d.dispatch|])
  {
    hide LaneOk, MoveRequest, FindRequest;
    LaneInv(c, d, write);
    FindsPending(LaneOf(d, write), write, Latest(c, d, write), d.now);
    MoveSame(d.(starved := n, batching := 1), FindRequest(LaneOf(d, write), d.now).value);
  }

  lemma FindsOldest(l: Lane, now: int)
    requires ByExpiry(l.fifo) && l.fifo != []
    ensures SomeExpired(l.fifo, now) || l.next.None? ==> FindRequest(l, now).Some? && Oldest(l.fifo, FindRequest(l, now).value)
    ensures !SomeExpired(l.fifo, now) && l.next.Some? ==> FindRequest(l, now) == l.next
  {
    if r :| r in l.fifo && r.expires < now {
      var k :| 0 <= k < |l.fifo| && l.fifo[k] == r;
      assert l.fifo[0].expires <= l.fifo[k].expires;
    }
    assert l.fifo[0] in l.fifo;
    forall r | r in l.fifo ensures l.fifo[0].expires <= r.expires {
      var k :| 0 <= k < |l.fifo| && l.fifo[k] == r;
    }
  }

  /** A batch starts with the oldest request of its direction if any there has expired or the sweep
      is at its end; otherwise it goes on with the sweep. */
  lemma BatchStarts(c: Config, ds: seq<Data>, acts: seq<Action>, i: nat)
    requires IsRun(c, ds, acts) && i < |acts| && acts[i].Call? && !InBatch(c, ds[i]) && forall k | 0 <= k < i :: Lowers(acts[k])
    requires Sent(c, ds[i]).Some?
    ensures var d, x := ds[i], Sent(c, ds[i]).value;
            if SomeExpired(Fifo(d, x.write), d.now) || LaneOf(d, x.write).next.None? then Oldest(Fifo(d, x.write), x)
            else NextUp(d, Late(ds, acts, i), Fronted(ds, acts, i), x)
  {
    hide Inv, Sweeps, Upwards, NextUp, Lowers, Enabled, Apply, InBatch, StartBatch, DispatchOne, FindRequest, Oldest, SomeExpired, ByExpiry, UniqueIds;
    RunKeeps(c, ds, acts, i);
    RunSweeps(c, ds, acts, i);
    RunUpwards(c, ds, acts, i);
    var d := ds[i];
    CallCases(c, d);
    NoneSent(c, d);
    var x := Sent(c, d).value;
    IdsOf(c, d, x.write);
    FindsOldest(LaneOf(d, x.write), d.now);
    StartSends(c, d, DispatchOne(c, d).0.starved, x.write);
    if LaneOf(d, x.write).next.Some? {
      NextIsUp(c, d, Late(ds, acts, i), Fronted(ds, acts, i), x.write);
    }
  }

  // ---------------------------------------------------------------------------
  // What does not hold
  // ---------------------------------------------------------------------------

  ghost predicate OneRead(d: Data, r: Rq) {
    !r.write && d.read == Lane([r], [r], None) && d.write == Lane([], [], None) && d.starved == 0
  }

  lemma OnlyEntry(x: Rq)
    ensures Insert([], x) == [x] && Erase([x], x) == [] && Successor([x], x) == None && Alias([], x.sector) == None
  {
    assert IndexOf([x], x) == 0;
  }

  lemma WriteComes(c: Config, d: Data, r: Rq, x: Rq)
    requires OneRead(d, r) && x.write
    ensures var x' := Timed(c, d, x);
            AddRequest(c, d, x) == d.(write := Lane([x'], [x'], None))
  {
    hide Insert, Alias;
    OnlyEntry(Timed(c, d, x));
  }

  /** A write that comes while a read waits is dispatched first. */
  lemma WriteGoes(c: Config, d: Data, r: Rq, x: Rq)
    requires OneRead(d, r) && x.write && c.writesStarved == 0
    ensures var d1 := d.(write := Lane([x], [x], None));
            Chooses(c, d1, true) && OneRead(DispatchOne(c, d1).0, r)
  {
    hide Erase, Successor;
    OnlyEntry(x);
  }

  /** With writes_starved zero a read can wait forever: for every n, a run of n calls that all choose
      writes while it is pending. */
  lemma {:induction false} ReadsCanStarve(c: Config, n: nat) returns (ds: seq<Data>, acts: seq<Action>, r: Rq)
    requires c.writesStarved == 0
    ensures IsRun(c, ds, acts) && 1 <= |acts| && OneRead(ds[|acts|], r) && Calls(acts, 1, |acts|) == n
    ensures forall k | 1 <= k < |acts| && acts[k].Call? :: Fifo(ds[k], false) != [] && Chooses(c, ds[k], true)
  {
    hide AddRequest, DispatchOne, Chooses;
    if n == 0 {
      var x := Rq(0, 0, false, false, false, 0);
      r := Timed(c, Init(), x);
      FirstRead(c, x);
      acts, ds := [Add(x)], [Init(), AddRequest(c, Init(), x)];
    } else {
      ds, acts, r := ReadsCanStarve(c, n - 1);
      var m, d, x := |acts|, ds[|acts|], Rq(0, 0, true, false, false, 0);
      WriteComes(c, d, r, x);
      var d1 := AddRequest(c, d, x);
      WriteGoes(c, d, r, Timed(c, d, x));
      var acts', ds' := acts + [Add(x), Call], ds + [d1, DispatchOne(c, d1).0];
      forall k | 0 <= k < |acts'| ensures Enabled(ds'[k], acts'[k]) && ds'[k + 1] == Apply(c, ds'[k], acts'[k]) {
        assert k < m ==> ds'[k] == ds[k] && ds'[k + 1] == ds[k + 1] && acts'[k] == acts[k];
      }
      CallsPrefix(acts, acts', 1, m);
      ds, acts := ds', acts';
    }
  }

  lemma FirstRead(c: Config, x: Rq)
    requires !x.write
    ensures OneRead(AddRequest(c, Init(), x), Timed(c, Init(), x))
  {
    hide Insert, Alias;
    OnlyEntry(Timed(c, Init(), x));
  }

  lemma {:induction false} CallsPrefix(acts: seq<Action>, acts': seq<Action>, i: nat, j: nat)
    requires i <= j <= |acts| && acts <= acts'
    ensures Calls(acts', i, j) == Calls(acts, i, j)
    decreases j - i
  {
    if i < j {
      CallsPrefix(acts, acts', i, j - 1);
    }
  }

  lemma TwoEntries(x: Rq, y: Rq)
    requires x.sector < y.sector
    ensures Insert([x], y) == [x, y] && Insert([y], x) == [x, y] && Erase([x, y], x) == [y] && Successor([x, y], x) == Some(y)
    ensures Alias([x], y.sector) == None && Alias([y], x.sector) == None
  {
    assert Rank([x], y.sector) == 1 by { assert [x][1..] == []; }
    assert Rank([y], x.sector) == 0;
    assert IndexOf([x, y], x) == 0;
  }

  /** A request added since the last dispatch can be passed by, though it is the next one above. */
  lemma AddedSinceIsPassed() returns (c: Config, ds: seq<Data>, acts: seq<Action>, last: Rq, r: Rq, x: Rq)
    ensures IsRun(c, ds, acts) && |acts| == 5 && acts[4].Call? && InBatch(c, ds[4])
    ensures ds[4].dispatch == [last] && r in ds[4].read.sort && Sent(c, ds[4]) == Some(x) && last.sector < r.sector < x.sector
  {
    hide AddRequest, DispatchOne, Sent;
    c := Config(500, 5000, 16, 2);
    last, r, x := Rq(0, 10, false, true, false, 500), Rq(1, 20, false, true, false, 500), Rq(2, 30, false, true, false, 500);
    var none := Lane([], [], None);
    var s1 := Data(Lane([last], [last], None), none, 0, 0, 0, []);
    var s2 := Data(Lane([last, x], [last, x], None), none, 0, 0, 0, []);
    var s3 := Data(Lane([x], [x], Some(x)), none, 1, 0, 0, [last]);
    var s4 := Data(Lane([r, x], [x, r], Some(x)), none, 1, 0, 0, [last]);
    acts := [Add(last), Add(x), Call, Add(r), Call];
    ds := [Init(), s1, s2, s3, s4, DispatchOne(c, s4).0];
    First(c, last, s1);
    Second(c, last, x, s1, s2);
    Third(c, last, x, s2, s3);
    Fourth(c, r, x, s3, s4);
    InBatchSends(c, s4);
    FiveSteps(c, ds, acts);
  }

  lemma FiveSteps(c: Config, ds: seq<Data>, acts: seq<Action>)
    requires |acts| == 5 && |ds| == 6 && ds[0] == Init()
    requires Enabled(ds[0], acts[0]) && ds[1] == Apply(c, ds[0], acts[0])
    requires Enabled(ds[1], acts[1]) && ds[2] == Apply(c, ds[1], acts[1])
    requires Enabled(ds[2], acts[2]) && ds[3] == Apply(c, ds[2], acts[2])
    requires Enabled(ds[3], acts[3]) && ds[4] == Apply(c, ds[3], acts[3])
    requires Enabled(ds[4], acts[4]) && ds[5] == Apply(c, ds[4], acts[4])
    ensures IsRun(c, ds, acts)
  {
    hide Enabled, Apply;
  }

  lemma First(c: Config, x: Rq, s1: Data)
    requires !x.write && x == Timed(c, Init(), x) && s1 == Data(Lane([x], [x], None), Lane([], [], None), 0, 0, 0, [])
    ensures AddRequest(c, Init(), x) == s1
  {
    hide Insert, Alias;
    OnlyEntry(x);
  }

  lemma Second(c: Config, a: Rq, x: Rq, s1: Data, s2: Data)
    requires !x.write && a.sector < x.sector && x == Timed(c, s1, x)
    requires s1 == Data(Lane([a], [a], None), Lane([], [], None), 0, 0, 0, []) && s2 == s1.(read := Lane([a, x], [a, x], None))
    ensures AddRequest(c, s1, x) == s2
  {
    hide Insert, Alias;
    TwoEntries(a, x);
  }

  lemma Third(c: Config, a: Rq, x: Rq, s2: Data, s3: Data)
    requires !a.write && a.sector < x.sector
    requires s2 == Data(Lane([a, x], [a, x], None), Lane([], [], None), 0, 0, 0, [])
    requires s3 == Data(Lane([x], [x], Some(x)), Lane([], [], None), 1, 0, 0, [a])
    ensures DispatchOne(c, s2).0 == s3
  {
    hide Erase, Successor;
    TwoEntries(a, x);
  }

  lemma Fourth(c: Config, r: Rq, x: Rq, s3: Data, s4: Data)
    requires !r.write && r.sector < x.sector && r == Timed(c, s3, r)
    requires s3.read == Lane([x], [x], Some(x)) && s4 == s3.(read := Lane([r, x], [x, r], Some(x)))
    ensures AddRequest(c, s3, r) == s4
  {
    hide Insert, Alias;
    TwoEntries(r, x);
  }
}
