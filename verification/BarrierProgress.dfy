/** What a fetch hands out, and that a sequence never gets stuck. */
module BarrierProgress {
  import opened Common
  import opened Barrier
  import opened BarrierPlacement
  import opened BarrierSequence
  import opened BarrierSteps
  import opened BarrierOrder
  import opened BarrierHistory
  import opened BarrierRuns

  // ---------------------------------------------------------------------------
  // Which request is due
  // ---------------------------------------------------------------------------

  /** The stages before s are over, and s is not. */
  ghost predicate LowestOpen(ordseq: set<nat>, s: nat) {
    s !in ordseq && forall i: nat | i < s :: i in ordseq
  }

  /** During a sequence: requests that barriers do not order, the proxy of the stage whose turn it
      is, and during the drain the fs requests added before the barrier. */
  ghost predicate IsDue(q: Queue, r: Request) {
    || Special(r)
    || (!r.who.Client? && LowestOpen(q.ordseq, StageOf(r.who)))
    || (r.who.Client? && r.fs && q.origBar.Some? && r.epoch == q.origBar.value.epoch && DRAIN_SEQ !in q.ordseq)
  }

  lemma LowestIsCurrent(ordseq: set<nat>, s: nat)
    requires s < DONE_SEQ
    ensures LowestOpen(ordseq, s) <==> CurSeq(ordseq) == s
  {
  }

  lemma BarrierEpoch(q: Queue)
    requires SeqInv(q) && q.origBar.Some?
    ensures q.origBar.value.epoch == |q.results|
  {
    hide Placement, Shapes, Attributes, Reported, BarrierQueue, Stages;
  }

  lemma DrainIsCurrent(q: Queue)
    requires SeqInv(q) && q.ordseq != {}
    ensures DRAIN_SEQ !in q.ordseq <==> CurSeq(q.ordseq) == DRAIN_SEQ
  {
    NotDone(q);
  }

  /** During a sequence the front request passes if and only if it is due. */
  lemma FrontPassesIffDue(q: Queue)
    requires OrdInv(q) && q.origBar.Some? && q.head != []
    ensures Sound(q) && DoOrdered(q) == (q, if IsDue(q, q.head[0]) then Some(q.head[0]) else None, true)
  {
    hide SeqInv, Layout, CurSeq, LowestOpen, Ord;
    OrdSeq(q);
    ModeDrains(q);
    BarrierEpoch(q);
    DrainIsCurrent(q);
    NotDone(q);
    var r := q.head[0];
    if Plain(r) {
      FrontSeq(q);
      FrontAfterDrain(q);
    } else if IsBarrier(r) {
      FrontIsFs(q);
      NextBarrierBlocked(q);
      FrontBarrierLater(q);
    } else if !r.who.Client? {
      FrontProxy(q);
      QueuedStageOpen(q);
      LowestIsCurrent(q.ordseq, StageOf(r.who));
      CurrentIsLowest(q.ordseq, StageOf(r.who));
    }
  }

  lemma CurrentIsLowest(ordseq: set<nat>, s: nat)
    requires s !in ordseq
    ensures CurSeq(ordseq) <= s
  {
  }

  lemma FrontBarrierLater(q: Queue)
    requires OrdInv(q) && q.origBar.Some? && q.head != [] && IsBarrier(q.head[0]) && q.head[0].fs
    ensures q.head[0].epoch > |q.results|
  {
    hide SeqInv, Ordered;
    assert q.head[0] in q.head;
  }

  lemma FrontAfterDrain(q: Queue)
    requires OrdInv(q) && q.head != [] && Plain(q.head[0])
    ensures DRAIN_SEQ in q.ordseq ==> q.head[0].epoch > |q.results|
  {
    hide SeqInv, HeadOk;
    assert q.head[0] in q.head;
  }

  // ---------------------------------------------------------------------------
  // A sequence does not get stuck
  // ---------------------------------------------------------------------------

  /** Requests that barriers do not order are never passed by others. */
  ghost predicate SoftSpecials(q: Queue) {
    forall r | (r in q.head || r in q.driver) && Special(r) :: r.soft
  }

  /** While the drain is open, the driver holds something or something to drain is in front. */
  ghost predicate DrainGoesOn(q: Queue) {
    q.origBar.Some? && DRAIN_SEQ !in q.ordseq && q.driver == {} ==> q.head != [] && ReqSeq(q, q.head[0]) == DRAIN_SEQ
  }

  ghost predicate Live(q: Queue) {
    SoftSpecials(q) && DrainGoesOn(q)
  }

  lemma AddLive(q: Queue, a: Action)
    requires Sound(q) && Live(q) && (a.DoAddSort? || a.DoAddBack? || a.DoAddFront?)
    ensures Live(Apply(q, a))
  {
    var q' := Apply(q, a);
    assert forall r | r in q'.head :: r in q.head || r.soft;
  }

  lemma MergeLive(q: Queue, a: Action)
    requires Sound(q) && Live(q) && (a.DoMergeBio? || a.DoMergeRequests? || a.DoBarError?)
    ensures Live(Apply(q, a))
  {
  }

  /** What is to be drained is not passed by a dispatch. */
  lemma DrainsFirst(q: Queue, r: Request, boundary: int)
    requires OrdInv(q) && SoftSpecials(q) && q.origBar.Some? && q.head != [] && ReqSeq(q, q.head[0]) == DRAIN_SEQ
    ensures SortStops(q.head[0], r, boundary)
  {
    hide SeqInv, Ordered;
    var x := q.head[0];
    assert x in q.head;
    if Plain(x) {
      SeqSound(q);
      FrontSeq(q);
    } else if IsBarrier(x) {
      assert x.hard;
    }
  }

  lemma DispatchLive(q: Queue, r: Request, boundary: int)
    requires OrdInv(q) && Live(q) && r in q.elev
    ensures Live(DispatchSort(q, r, boundary)) && Live(DispatchTail(q, r))
  {
    hide SeqInv, HeadOk, DriverOk, DrainDone, StagesBefore, FsOf, SortStops, ReqSeq;
    var i := SortIndex(q.head, r, boundary, |q.head|);
    InsertMembers(q.head, i, r);
    assert InsertAt(q.head, |q.head|, r) == q.head + [r];
    InsertMembers(q.head, |q.head|, r);
    if q.origBar.Some? && DRAIN_SEQ !in q.ordseq && q.driver == {} {
      DrainsFirst(q, r, boundary);
      assert i > 0;
      SameSeqOf(q, DispatchSort(q, r, boundary), q.head[0]);
      SameSeqOf(q, DispatchTail(q, r), q.head[0]);
    }
  }

  lemma SameSeqOf(q: Queue, q': Queue, r: Request)
    requires q.origBar.Some? && q'.origBar == q.origBar
    ensures ReqSeq(q', r) == ReqSeq(q, r)
  {
  }

  lemma RequeueLive(q: Queue, r: Request)
    requires OrdInv(q) && Live(q) && r in q.driver
    ensures Sound(q) && Live(Requeue(q, r))
  {
    hide SeqInv, HeadOk, StagesBefore, FsOf, RequeueIndex;
    OrdSeq(q);
    var q1 := Uncount(q.(driver := q.driver - {r}), r);
    var r1 := r.(started := false, soft := true);
    var i := if q1.ordseq == {} then 0 else RequeueIndex(q1, ReqSeq(q1, r1), 0);
    InsertMembers(q.head, i, r1);
    if q.origBar.Some? && DRAIN_SEQ !in q.ordseq {
      RequeuedDrains(q, r);
    }
  }

  /** Only what is to be drained is with the driver during the drain. */
  lemma RequeuedDrains(q: Queue, r: Request)
    requires OrdInv(q) && q.origBar.Some? && DRAIN_SEQ !in q.ordseq && r in q.driver
    ensures ReqSeq(q, r) == DRAIN_SEQ
  {
    hide Base, Stages, HeadOk, StagesBefore, FsOf;
    DriverStarted(q, r);
    if Plain(r) {
      DriverColor(q, r);
    }
  }

  lemma CompleteSeqFrame(q: Queue, seqs: set<nat>, error: int)
    requires q.origBar.Some?
    ensures var q' := CompleteSeq(q, seqs, error).0;
            && q'.head == q.head && q'.driver == q.driver
            && (q'.origBar.None? || (q'.origBar == q.origBar && q'.ordseq == q.ordseq + seqs))
  {
    hide CurSeq;
  }

  lemma LiveSame(q: Queue, q': Queue)
    requires SoftSpecials(q) && q'.head == q.head && q'.driver <= q.driver
    ensures SoftSpecials(q')
  {
  }

  /** A client request ends: if the driver holds nothing more, the drain is over unless something
      to drain is in front. */
  lemma CompletedLive(q: Queue, r: Request)
    requires Sound(q) && SoftSpecials(q) && Layout(Uncount(q, r), q.ordseq)
    requires q.ordseq != {} ==> (DRAIN_SEQ !in q.ordseq <==> CurSeq(q.ordseq) == DRAIN_SEQ)
    ensures Live(Completed(q, r))
  {
    hide Layout, CurSeq, ReqSeq, SoftSpecials, CompleteSeq;
    var q1 := Uncount(q, r);
    EmptyFlight(q1);
    LiveSame(q, q1);
    if q1.origBar.Some? {
      CompleteSeqFrame(q1, {DRAIN_SEQ}, 0);
      LiveSame(q, CompleteSeq(q1, {DRAIN_SEQ}, 0).0);
    }
  }

  lemma CompleteLive(q: Queue, r: Request, error: int)
    requires OrdInv(q) && Live(q) && r in q.driver
    ensures Sound(q) && Live(Complete(q, r, error))
  {
    hide SeqInv, Layout, ReqSeq, CurSeq, SoftSpecials, CompleteSeq, Completed, Uncount;
    OrdSeq(q);
    DriverStarted(q, r);
    if q.origBar.Some? {
      DrainIsCurrent(q);
    }
    if !r.who.Client? {
      ProxyEnds(q, r);
      ProxyCompletes(q, r, error);
      UncountFrame(q.(driver := q.driver - {r}), r);
      var q1 := Uncount(q.(driver := q.driver - {r}), r);
      CompleteSeqFrame(q1, {StageOf(r.who)}, error);
      LiveSame(q, Complete(q, r, error));
    } else {
      var q1 := q.(driver := q.driver - {r}, done := q.done + {r.who.id});
      DriverLeaves(q, r, q1.done);
      LiveSame(q, q1);
      CompletedLive(q1, r);
    }
  }

  lemma UncountFrame(q: Queue, r: Request)
    ensures Uncount(q, r) == q.(inFlight := Uncount(q, r).inFlight)
  {
  }

  lemma EmptyFlight(q: Queue)
    requires Layout(q, q.ordseq)
    ensures q.driver == {} ==> q.inFlight == 0
    ensures q.inFlight == |FsOf(q.driver)|
  {
    hide HeadOk, ElevOk, DriverOk, DrainDone, StagesBefore;
    assert FsOf({}) == {};
  }

  lemma StartLive(q: Queue)
    requires OrdInv(q) && Live(q) && q.ordseq == {} && q.head != []
    ensures Live(StartOrdered(q).0)
  {
    hide SeqInv, Layout, CurSeq, SequenceMode, ReqSeq, Proxies;
    EmptyFlight(q);
    StartOrderedIs(q);
    var q' := StartOrdered(q).0;
    var m := SequenceMode(q.nextOrdered, q.head[0].empty);
    ProxiesOrdered(m, q.head[0]);
  }

  lemma DoOrderedLive(q: Queue)
    requires OrdInv(q) && Live(q) && q.head != []
    ensures Sound(q) && Live(DoOrdered(q).0)
  {
    hide SeqInv, Layout, StartOrdered, SoftSpecials, ReqSeq, CurSeq;
    OrdSeq(q);
    ModeDrains(q);
    if q.ordseq == {} {
      StartLive(q);
    }
  }

  lemma {:induction false} NextRequestLive(q: Queue)
    requires OrdInv(q) && Live(q)
    ensures Sound(q) && Live(NextRequest(q).0)
    decreases |q.head|
  {
    hide OrdInv, DoOrdered, Live;
    OrdSeq(q);
    if q.head != [] {
      DoOrderedOrd(q);
      DoOrderedProgress(q);
      DoOrderedLive(q);
      if !DoOrdered(q).2 {
        NextRequestLive(DoOrdered(q).0);
      }
    }
  }

  lemma FetchLive(q: Queue)
    requires OrdInv(q) && Live(q)
    ensures Sound(q) && Live(Fetch(q).0) && Live(Peek(q))
  {
    hide OrdInv, NextRequest;
    NextRequestLive(q);
    var q1 := NextRequest(q).0;
    if q1.head != [] {
      TakenLive(q1);
    }
  }

  lemma TakenLive(q: Queue)
    requires Live(q) && q.head != []
    ensures Live(Dequeue(q)) && Live(q.(head := [Start(q.head[0])] + q.head[1..]))
  {
    var q', q'' := Dequeue(q), q.(head := [Start(q.head[0])] + q.head[1..]);
    assert q.head[0] in q.head;
    assert forall r | r in q'.head :: r in q.head;
    assert forall r | r in q''.head :: r in q.head || r == Start(q.head[0]);
  }

  lemma LiveStep(q: Queue, a: Action)
    requires OrdInv(q) && Live(q) && Enabled(q, a)
    ensures Sound(q) && Live(Apply(q, a))
  {
    hide OrdInv, Live, Fetch, Peek, Complete, Requeue, DispatchSort, DispatchTail, RecordError, MergeCandidate;
    OrdSeq(q);
    match a
    case DoAddSort(_, _, _) => AddLive(q, a);
    case DoAddBack(_, _, _, _, _) => AddLive(q, a);
    case DoAddFront(_, _) => AddLive(q, a);
    case DoMergeBio(_, _, _) => MergeLive(q, a);
    case DoMergeRequests(_, _) => MergeLive(q, a);
    case DoBarError(_) => MergeLive(q, a);
    case DoDispatchSort(r, boundary) => DispatchLive(q, r, boundary);
    case DoDispatchTail(r) => DispatchLive(q, r, 0);
    case DoPeek => FetchLive(q);
    case DoFetch => FetchLive(q);
    case DoComplete(r, error) => CompleteLive(q, r, error);
    case DoRequeue(r) => RequeueLive(q, r);
  }

  lemma {:induction false} RunLive(m: Mode, qs: seq<Queue>, acts: seq<Action>, i: nat)
    requires IsDrainMode(m) && IsRun(m, qs, acts) && i <= |acts|
    ensures OrdInv(qs[i]) && Live(qs[i])
  {
    hide OrdInv, Indexed, History, Live, Apply, Enabled, Init;
    RunOrd(m, qs, acts, i);
    if i == 0 {
      InitLive(m);
    } else {
      RunLive(m, qs, acts, i - 1);
      LiveStep(qs[i - 1], acts[i - 1]);
    }
  }

  lemma InitLive(m: Mode)
    ensures Live(Init(m))
  {
  }

  // ---------------------------------------------------------------------------
  // Progress
  // ---------------------------------------------------------------------------

  /** The lowest open stage, when the drain is over. */
  lemma OpenProxyQueued(q: Queue) returns (k: nat)
    requires OrdInv(q) && q.origBar.Some? && DRAIN_SEQ in q.ordseq && q.driver == {}
    ensures k < |q.head| && !q.head[k].who.Client? && LowestOpen(q.ordseq, StageOf(q.head[k].who))
  {
    hide Base, Layout, CensusOf, Held;
    NotDone(q);
    var s := CurSeq(q.ordseq);
    var w := if s == PREFLUSH_SEQ then PreFlush else if s == BAR_SEQ then BarProxy else PostFlush;
    assert StageOf(w) == s && Held(CensusOf(q), w);
    k := HeldInHead(q, w);
  }

  lemma HeldInHead(q: Queue, w: Who) returns (k: nat)
    requires SeqInv(q) && Held(CensusOf(q), w) && !w.Client? && q.driver == {}
    ensures k < |q.head| && q.head[k].who == w
  {
    hide Consistent, Attributes, Reported, BarrierQueue, Stages, CensusOf;
    var r :| r in CensusOf(q) && r.who == w;
    WhereHeld(q, r);
    k :| 0 <= k < |q.head| && q.head[k] == r;
  }

  /** Whatever is in front of the proxy whose turn it is, is that proxy or not ordered. */
  lemma FrontIsDue(q: Queue, k: nat)
    requires OrdInv(q) && q.origBar.Some? && DRAIN_SEQ in q.ordseq
    requires k < |q.head| && !q.head[k].who.Client? && LowestOpen(q.ordseq, StageOf(q.head[k].who))
    ensures IsDue(q, q.head[0])
  {
    hide SeqInv, FsOf, StagesBefore;
    var r := q.head[0];
    assert r in q.head && q.head[k] in q.head;
    if k > 0 && !Special(r) {
      assert Ord(r) <= Ord(q.head[k]);
      if Plain(r) { FrontAfterDrain(q); } else if !r.who.Client? { OpenFront(q); }
    }
  }

  lemma OpenFront(q: Queue)
    requires OrdInv(q) && q.origBar.Some? && q.head != [] && !q.head[0].who.Client?
    ensures StageOf(q.head[0].who) !in q.ordseq
  {
    hide Layout, SeqInv;
    OrdSeq(q);
    QueuedStageOpen(q);
  }

  /** With nothing at the driver, the front of the queue is due. */
  lemma SomethingIsDue(q: Queue)
    requires OrdInv(q) && Live(q) && q.origBar.Some? && q.driver == {}
    ensures q.head != [] && IsDue(q, q.head[0])
  {
    hide SeqInv, Layout, SoftSpecials, LowestOpen;
    OrdSeq(q);
    if DRAIN_SEQ in q.ordseq {
      var k := OpenProxyQueued(q);
      FrontIsDue(q, k);
    } else {
      BarrierEpoch(q);
      NotDone(q);
      if Plain(q.head[0]) {
        FrontSeq(q);
      } else if IsBarrier(q.head[0]) {
        NextBarrierBlocked(q);
      }
    }
  }

  /** What a fetch hands out during a sequence. */
  lemma FetchDuring(q: Queue)
    requires OrdInv(q) && q.origBar.Some?
    ensures Sound(q) && Fetch(q).1 == if q.head != [] && IsDue(q, q.head[0]) then Some(q.head[0]) else None
  {
    hide OrdInv, DoOrdered, IsDue;
    OrdSeq(q);
    if q.head != [] {
      FrontPassesIffDue(q);
    }
  }

  /** In a drain mode, during a sequence, a fetch hands out the front request if and only if it is
      due, and nothing else. */
  lemma HandedOutIffDue(m: Mode, qs: seq<Queue>, acts: seq<Action>, i: nat)
    requires IsDrainMode(m) && IsRun(m, qs, acts) && i <= |acts| && qs[i].origBar.Some?
    ensures Sound(qs[i])
    ensures Fetch(qs[i]).1 == if qs[i].head != [] && IsDue(qs[i], qs[i].head[0]) then Some(qs[i].head[0]) else None
  {
    hide OrdInv, Indexed, History, Fetch, IsDue;
    RunOrd(m, qs, acts, i);
    FetchDuring(qs[i]);
  }

  /** In a drain mode a sequence goes on: whenever the driver holds nothing, the next fetch hands
      out a request of the sequence or one that barriers do not order. */
  lemma SequenceGoesOn(m: Mode, qs: seq<Queue>, acts: seq<Action>, i: nat)
    requires IsDrainMode(m) && IsRun(m, qs, acts) && i <= |acts| && qs[i].origBar.Some? && qs[i].driver == {}
    ensures Sound(qs[i]) && Fetch(qs[i]).1.Some? && IsDue(qs[i], Fetch(qs[i]).1.value)
  {
    hide OrdInv, Live, Fetch, IsDue;
    RunLive(m, qs, acts, i);
    SomethingIsDue(qs[i]);
    FetchDuring(qs[i]);
  }

  // ---------------------------------------------------------------------------
  // Fetching when no sequence is in progress
  // ---------------------------------------------------------------------------

  /** Without a sequence the first request that is no barrier is handed out; a barrier in front of
      it begins a sequence, whose first proxy is handed out at once unless a drain is to be waited
      for. */
  ghost predicate FetchedOutside(q': Queue, r: Option<Request>) {
    if q'.origBar.None? then
      if r.Some? then q'.head != [] && q'.head[0] == r.value && !IsBarrier(r.value) else q'.head == []
    else
      && (r.Some? <==> DRAIN_SEQ in q'.ordseq)
      && (r.Some? ==> q'.head != [] && q'.head[0] == r.value && !r.value.who.Client?
                      && LowestOpen(q'.ordseq, StageOf(r.value.who)))
  }

  lemma StartHandsOut(q: Queue)
    requires q.ordseq == {} && q.origBar.None? && q.head != [] && q.nextOrdered != NONE && q.head[0].fs && q.head[0].hard
    ensures StartOrdered(q).2 ==> FetchedOutside(StartOrdered(q).0, StartOrdered(q).1)
  {
    hide SequenceMode;
    StartOutcome(q);
    var m := SequenceMode(q.nextOrdered, q.head[0].empty);
    StartOrderedIs(q);
  }

  lemma DoOrderedOutside(q: Queue)
    requires SeqInv(q) && q.origBar.None? && q.head != []
    ensures Sound(q)
    ensures var (q1, r, stop) := DoOrdered(q); if stop then FetchedOutside(q1, r) else q1.origBar.None?
  {
    hide SeqInv, StartOrdered, FetchedOutside;
    SeqSound(q);
    FrontIsFs(q);
    FrontIsClient(q);
    if q.head[0].fs && q.head[0].hard {
      if q.nextOrdered != NONE {
        StartOutcome(q);
        StartHandsOut(q);
      }
    } else {
      Handed(q, q.head[0]);
    }
  }

  lemma Handed(q: Queue, r: Request)
    requires q.origBar.None? && q.head != [] && q.head[0] == r && !IsBarrier(r)
    ensures FetchedOutside(q, Some(r))
  {
  }

  lemma {:induction false} NextRequestOutside(q: Queue)
    requires SeqInv(q) && q.origBar.None?
    ensures Sound(q) && FetchedOutside(NextRequest(q).0, NextRequest(q).1)
    decreases |q.head|
  {
    hide SeqInv, DoOrdered;
    SeqSound(q);
    if q.head != [] {
      DoOrderedProgress(q);
      DoOrderedOutside(q);
      DoOrderedKeeps(q);
      if !DoOrdered(q).2 {
        NextRequestOutside(DoOrdered(q).0);
      }
    }
  }

  /** In every mode, when no sequence is in progress. */
  lemma FetchWithoutSequence(m: Mode, qs: seq<Queue>, acts: seq<Action>, i: nat)
    requires IsMode(m) && IsRun(m, qs, acts) && i <= |acts| && qs[i].origBar.None?
    ensures Sound(qs[i]) && Fetch(qs[i]).1 == NextRequest(qs[i]).1
    ensures FetchedOutside(NextRequest(qs[i]).0, Fetch(qs[i]).1)
  {
    hide SeqInv, Indexed, NextRequest;
    RunSeq(m, qs, acts, i);
    NextRequestOutside(qs[i]);
  }

  /** The queue never hangs: in a drain mode, when the driver holds nothing, a fetch finds a request
      unless nothing is left on the dispatch queue. */
  lemma NeverHangs(m: Mode, qs: seq<Queue>, acts: seq<Action>, i: nat)
    requires IsDrainMode(m) && IsRun(m, qs, acts) && i <= |acts| && qs[i].driver == {}
    ensures Sound(qs[i]) && (Fetch(qs[i]).1.Some? || (Fetch(qs[i]).0.head == [] && Fetch(qs[i]).0.origBar.None?))
  {
    hide OrdInv, Indexed, History, NextRequest, IsDue, IsRun, Fetch;
    RunBounds(m, qs, acts);
    if qs[i].origBar.Some? {
      SequenceGoesOn(m, qs, acts, i);
    } else {
      FetchWithoutSequence(m, qs, acts, i);
      RunOrd(m, qs, acts, i);
      NothingHeld(qs[i]);
    }
  }

  lemma RunBounds(m: Mode, qs: seq<Queue>, acts: seq<Action>)
    requires IsRun(m, qs, acts)
    ensures |qs| == |acts| + 1
  {
  }

  lemma NoDrainToWaitFor(q: Queue)
    requires Sound(q) && q.inFlight == 0 && q.origBar.None? && NextRequest(q).0.origBar.Some?
    ensures DRAIN_SEQ in NextRequest(q).0.ordseq
  {
    hide NextRequest, SequenceMode;
    NextRequestOutcome(q);
    var q1 := NextRequest(q).0;
    var b :| BegunFrom(q.(results := q1.results), q1, b);
  }

  lemma NothingHeld(q: Queue)
    requires OrdInv(q) && Sound(q) && FetchedOutside(NextRequest(q).0, NextRequest(q).1) && q.driver == {} && q.origBar.None?
    ensures Fetch(q).1.Some? || (Fetch(q).0.head == [] && Fetch(q).0.origBar.None?)
  {
    hide SeqInv, Layout, NextRequest, LowestOpen, ReqSeq;
    EmptyFlight(q);
    if NextRequest(q).0.origBar.Some? {
      NoDrainToWaitFor(q);
    }
  }

  /** Ordered by tag: only the next barrier is held back. */
  lemma TagFetch(m: Mode, qs: seq<Queue>, acts: seq<Action>, i: nat)
    requires IsMode(m) && IsRun(m, qs, acts) && i <= |acts| && qs[i].origBar.Some? && qs[i].ordered.byTag
    ensures Sound(qs[i])
    ensures Fetch(qs[i]).1 == if qs[i].head != [] && !IsBarrier(qs[i].head[0]) then Some(qs[i].head[0]) else None
  {
    hide SeqInv, Indexed, Apply, Enabled, Init;
    RunSeq(m, qs, acts, i);
    var q := qs[i];
    SeqSound(q);
    if q.head != [] {
      FrontIsFs(q);
      if !q.head[0].who.Client? {
        FrontProxy(q);
      }
    }
  }

  // ---------------------------------------------------------------------------
  // The stages of a barrier
  // ---------------------------------------------------------------------------

  lemma DoOrderedMode(q: Queue)
    requires Sound(q) && q.head != []
    ensures DoOrdered(q).0.nextOrdered == q.nextOrdered && DoOrdered(q).0.inFlight == q.inFlight
  {
    hide SequenceMode, Proxies, SkippedStages, CurSeq, ReqSeq;
  }

  lemma {:induction false} NextRequestMode(q: Queue)
    requires Sound(q)
    ensures NextRequest(q).0.nextOrdered == q.nextOrdered && NextRequest(q).0.inFlight == q.inFlight
    decreases |q.head|
  {
    hide DoOrdered;
    if q.head != [] {
      DoOrderedProgress(q);
      DoOrderedMode(q);
      if !DoOrdered(q).2 {
        NextRequestMode(DoOrdered(q).0);
      }
    }
  }

  lemma StepMode(q: Queue, a: Action)
    requires Sound(q)
    ensures Apply(q, a).nextOrdered == q.nextOrdered
  {
    hide NextRequest, CurSeq, ReqSeq, RequeueIndex, SortIndex, InsertAt;
    NextRequestMode(q);
  }

  lemma {:induction false} ModeIsFixed(m: Mode, qs: seq<Queue>, acts: seq<Action>, i: nat)
    requires IsRun(m, qs, acts) && i <= |acts|
    ensures qs[i].nextOrdered == m
  {
    hide Apply, Enabled, Sound;
    if i > 0 {
      ModeIsFixed(m, qs, acts, i - 1);
      StepMode(qs[i - 1], acts[i - 1]);
    }
  }

  /** The stages that a barrier goes through: an empty one has nothing to write and nothing to flush
      behind it. */
  ghost predicate StagesOf(m: Mode, b: Request, inFlight: int, ordseq: set<nat>) {
    && (PREFLUSH_SEQ !in ordseq <==> m.preflush)
    && (BAR_SEQ !in ordseq <==> m.bar && !b.empty)
    && (POSTFLUSH_SEQ !in ordseq <==> m.postflush && !b.empty)
    && (DRAIN_SEQ !in ordseq <==> inFlight != 0 && (m.byDrain || (m.byTag && b.empty && !m.preflush)))
    && STARTED_SEQ in ordseq
  }

  lemma SkippedExactly(m: Mode, b: Request, inFlight: int)
    requires IsMode(m) && m != NONE
    ensures var o := SequenceMode(m, b.empty);
            StagesOf(m, b, inFlight, {STARTED_SEQ} + SkippedStages(o, o.byDrain && inFlight != 0))
  {
  }

  /** In every mode, a fetch that begins the sequence of a barrier opens exactly its stages; the drain
      is one of them exactly if something is in flight and no tag orders it. */
  lemma BeginsWithItsStages(m: Mode, qs: seq<Queue>, acts: seq<Action>, i: nat)
    requires IsMode(m) && IsRun(m, qs, acts) && i < |acts| && (acts[i].DoFetch? || acts[i].DoPeek?)
    requires qs[i].origBar.None? && qs[i + 1].origBar.Some?
    ensures StagesOf(m, qs[i + 1].origBar.value, qs[i].inFlight, qs[i + 1].ordseq)
  {
    hide SequenceMode, SkippedStages, Fetch, Peek, Enabled, NothingToDo, StagesOf, Begun, IsMode;
    ModeIsFixed(m, qs, acts, i);
    FetchOutcome(qs[i]);
    var q, q' := qs[i], qs[i + 1];
    BegunStages(q, q', m);
  }

  lemma BegunStages(q: Queue, q': Queue, m: Mode)
    requires Begun(q, q'.results, q') && q.nextOrdered == m && IsMode(m)
    ensures q'.origBar.Some? && StagesOf(m, q'.origBar.value, q.inFlight, q'.ordseq)
  {
    hide SequenceMode, SkippedStages, NothingToDo, StagesOf, IsMode;
    var b :| BegunFrom(q.(results := q'.results), q', b);
    SkippedExactly(m, b, q.inFlight);
  }
}
