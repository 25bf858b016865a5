/** The guarantees of the barrier protocol over whole runs. */
module BarrierRuns {
  import opened Common
  import opened Barrier
  import opened BarrierPlacement
  import opened BarrierSequence
  import opened BarrierSteps
  import opened BarrierOrder
  import opened BarrierHistory

  /** A run: clients, scheduler and driver act in any order on an initially empty queue. */
  ghost predicate IsRun(m: Mode, qs: seq<Queue>, acts: seq<Action>) {
    && |qs| == |acts| + 1
    && qs[0] == Init(m)
    && (forall i | 0 <= i < |acts| :: Sound(qs[i]) && Enabled(qs[i], acts[i]) && qs[i + 1] == Apply(qs[i], acts[i]))
  }

  lemma InitSeq(m: Mode)
    requires IsMode(m)
    ensures SeqInv(Init(m)) && Indexed(Init(m)) && History(Init(m))
  {
    hide Consistent, Attributes, Stages, Reported, BarrierQueue;
    assert CensusOf(Init(m)) == multiset{};
    EmptyCensus();
    EmptyRecord();
  }

  lemma EmptyCensus()
    ensures Consistent(multiset{}, [], {}) && Attributes(multiset{}) && Stages(multiset{}, {}, {})
  {
  }

  lemma EmptyRecord()
    ensures Reported([], [], {}) && BarrierQueue([], 0, 0)
  {
  }

  lemma InitOrd(m: Mode)
    requires IsDrainMode(m)
    ensures OrdInv(Init(m))
  {
    InitSeq(m);
    assert FsOf(Init(m).driver) == {};
  }

  lemma {:induction false} RunSeq(m: Mode, qs: seq<Queue>, acts: seq<Action>, i: nat)
    requires IsMode(m) && IsRun(m, qs, acts) && i <= |acts|
    ensures SeqInv(qs[i]) && Indexed(qs[i])
  {
    hide SeqInv, Indexed, Apply, Enabled, Init, IsMode;
    if i == 0 {
      InitSeq(m);
    } else {
      RunSeq(m, qs, acts, i - 1);
      SeqStep(qs[i - 1], acts[i - 1]);
      IndexedStep(qs[i - 1], acts[i - 1]);
    }
  }

  lemma {:induction false} RunOrd(m: Mode, qs: seq<Queue>, acts: seq<Action>, i: nat)
    requires IsDrainMode(m) && IsRun(m, qs, acts) && i <= |acts|
    ensures OrdInv(qs[i]) && Indexed(qs[i]) && History(qs[i])
  {
    hide OrdInv, Indexed, History, Apply, Enabled, Init;
    if i == 0 {
      InitSeq(m);
      InitOrd(m);
    } else {
      RunOrd(m, qs, acts, i - 1);
      OrdStep(qs[i - 1], acts[i - 1]);
      OrdSeq(qs[i - 1]);
      IndexedStep(qs[i - 1], acts[i - 1]);
      HistoryStep(qs[i - 1], acts[i - 1]);
    }
  }

  // ---------------------------------------------------------------------------
  // Safety in the drain modes
  // ---------------------------------------------------------------------------

  /** All that is ahead of barrier `b` has ended. */
  ghost predicate AllBeforeEnded(q: Queue, b: nat) {
    forall id: nat | id < b && id < |q.added| && q.added[id].fs :: id in q.done
  }

  /** Every barrier ahead of request `id` has ended. */
  ghost predicate BarriersBeforeEnded(q: Queue, id: nat) {
    forall b: nat | b < id && b < |q.added| && q.added[b].hard :: b in q.done
  }

  /** Handing r to the driver leads to q. */
  ghost predicate SafeIssue(q: Queue, r: Request) {
    && (!r.who.Client? ==> q.origBar.Some? && q.origBar.value.who.Client? && AllBeforeEnded(q, q.origBar.value.who.id))
    && (r.who.Client? && r.fs ==> !r.hard && BarriersBeforeEnded(q, r.who.id))
    && Stamped(r)
  }

  lemma InCensus(q: Queue, r: Request)
    requires r in q.head || r in q.elev || r in q.driver
    ensures r in CensusOf(q)
  {
  }

  /** A client request that has not ended is somewhere in the queue. */
  lemma StillHeld(q: Queue, id: nat) returns (r: Request)
    requires SeqInv(q) && id < |q.added| && id !in q.done
    ensures r in CensusOf(q) && r.who == Client(id) && q.added[id] == Added(r.fs, r.hard, r.epoch)
  {
    hide Unique, Shapes, Attributes, Reported, Stages, BarrierQueue, CensusOf;
    assert Kept(CensusOf(q), q.done, id);
    r :| r in CensusOf(q) && r.who == Client(id);
    assert Recorded(r, q.added, q.done);
  }

  lemma WhereHeld(q: Queue, r: Request)
    requires r in CensusOf(q)
    ensures r in q.head || r in q.elev || r in q.driver || q.origBar == Some(r)
  {
  }

  /** Once the drain is over, whatever of an earlier or the same epoch remains is the barrier. */
  lemma OnlyBarrierLeft(q: Queue, r: Request)
    requires OrdInv(q) && DRAIN_SEQ in q.ordseq && r in CensusOf(q)
    requires r.who.Client? && r.fs && r.epoch <= |q.results|
    ensures q.origBar == Some(r)
  {
    hide Consistent, Attributes, Reported, Stages, BarrierQueue, Ordered, CensusOf, FsOf;
    WhereHeld(q, r);
    EpochsBounded(q);
  }

  lemma EpochOf(q: Queue, r: Request)
    requires SeqInv(q) && r in CensusOf(q) && r.who.Client?
    ensures r.who.id < |q.added| && q.added[r.who.id] == Added(r.fs, r.hard, r.epoch)
  {
    hide Unique, Kept, Shapes, Attributes, Reported, Stages, BarrierQueue, CensusOf;
    assert Recorded(r, q.added, q.done);
  }

  lemma DrainProtects(q: Queue)
    requires OrdInv(q) && History(q) && DRAIN_SEQ in q.ordseq
    ensures q.origBar.Some? && q.origBar.value.who.Client? && AllBeforeEnded(q, q.origBar.value.who.id)
  {
    hide SeqInv, Layout, AddedOk, AllStamped;
    BarrierKnown(q);
    var b := q.origBar.value.who.id;
    forall id: nat | id < b && id < |q.added| && q.added[id].fs ensures id in q.done {
      if id !in q.done {
        EpochsGrow(q.added, q.epoch, id, b);
        var r := StillHeld(q, id);
        OnlyBarrierLeft(q, r);
        assert false;
      }
    }
  }

  lemma BarrierKnown(q: Queue)
    requires SeqInv(q) && q.ordseq != {}
    ensures q.origBar.Some? && IsBarrier(q.origBar.value) && q.origBar.value in CensusOf(q)
    ensures var b := q.origBar.value; b.who.id < |q.added| && q.added[b.who.id].epoch == |q.results|
  {
    hide Unique, Kept, Shapes, Attributes, Reported, Stages, BarrierQueue, CensusOf;
    InProgress(q);
  }

  lemma EarlierReported(q: Queue, b: nat)
    requires SeqInv(q) && History(q) && b < |q.added| && q.added[b].hard && q.added[b].epoch < |q.results|
    ensures b in q.done
  {
    hide SeqInv, AllStamped;
    var id := ResultAt(q, q.added[b].epoch);
    if id < b {
      EpochsGrow(q.added, q.epoch, id, b);
    } else if b < id {
      EpochsGrow(q.added, q.epoch, b, id);
    }
  }

  lemma ResultAt(q: Queue, e: nat) returns (id: nat)
    requires SeqInv(q) && e < |q.results|
    ensures id < |q.added| && id in q.done && q.added[id] == Added(true, true, e)
  {
    hide Consistent, Shapes, Attributes, Stages, BarrierQueue, CensusOf;
    id := q.results[e].0;
  }

  lemma ClientProtected(q: Queue, r: Request)
    requires OrdInv(q) && History(q) && r in CensusOf(q) && Plain(r) && r.epoch == |q.results|
    ensures BarriersBeforeEnded(q, r.who.id)
  {
    hide SeqInv, Layout, AddedOk, AllStamped;
    EpochOf(q, r);
    forall b: nat | b < r.who.id && b < |q.added| && q.added[b].hard ensures b in q.done {
      EpochsGrow(q.added, q.epoch, b, r.who.id);
      EarlierReported(q, b);
    }
  }

  /** What blk_fetch_request hands out in a drain mode is safe to issue. */
  lemma FetchIsSafe(q: Queue)
    requires OrdInv(q) && History(q)
    ensures Sound(q) && (Fetch(q).1.Some? ==> SafeIssue(Fetch(q).0, Fetch(q).1.value))
  {
    hide OrdInv, History, NextRequest, Issuable, Dequeue, AllBeforeEnded, BarriersBeforeEnded, Stamped;
    OrdSeq(q);
    NextRequestOrd(q);
    NextRequestKeeps(q);
    FetchHistory(q);
    var q1 := NextRequest(q).0;
    if NextRequest(q).1.Some? {
      PeekedHistory(q);
      OrdSeq(q1);
      IssueIsSafe(q1);
      SameEnds(q1);
    }
  }

  lemma PeekedHistory(q: Queue)
    requires Sound(q) && History(q)
    ensures History(NextRequest(q).0)
  {
    NextRequestSame(q);
  }

  lemma SameEnds(q: Queue)
    requires q.head != []
    ensures Dequeue(q).added == q.added && Dequeue(q).done == q.done && Dequeue(q).origBar == q.origBar
    ensures forall b: nat :: AllBeforeEnded(q, b) ==> AllBeforeEnded(Dequeue(q), b)
    ensures forall b: nat :: BarriersBeforeEnded(q, b) ==> BarriersBeforeEnded(Dequeue(q), b)
  {
  }

  lemma IssueIsSafe(q: Queue)
    requires OrdInv(q) && History(q) && q.head != [] && Passed(q, Some(q.head[0])) && Issuable(q, q.head[0])
    ensures SafeIssue(q, q.head[0])
  {
    hide OrdInv, AddedOk, AllBeforeEnded, BarriersBeforeEnded, Stamped;
    var r := q.head[0];
    assert r in q.head;
    if !r.who.Client? {
      DrainProtects(q);
    } else if r.fs {
      InCensus(q, r);
      ClientProtected(q, r);
    }
  }

  /** Barrier safety: in a drain mode, whenever the driver is handed a flush or barrier proxy,
      every fs request added before the barrier has ended; whenever it is handed an fs request,
      every barrier added before it has ended; and every bio of what it is handed was added
      after the same barriers as the request that carries it. */
  lemma BarrierSafety(m: Mode, qs: seq<Queue>, acts: seq<Action>, i: nat)
    requires IsDrainMode(m) && IsRun(m, qs, acts) && i < |acts| && acts[i] == DoFetch
    ensures Fetch(qs[i]).1.Some? ==> SafeIssue(qs[i + 1], Fetch(qs[i]).1.value)
  {
    hide OrdInv, History, Indexed, Fetch, SafeIssue;
    RunOrd(m, qs, acts, i);
    FetchIsSafe(qs[i]);
  }

  /** No bio merges into a request that a barrier separates it from. */
  lemma MergesStayInEpoch(m: Mode, qs: seq<Queue>, acts: seq<Action>, i: nat)
    requires IsDrainMode(m) && IsRun(m, qs, acts) && i < |acts|
    ensures acts[i].DoMergeBio? ==> BarriersBeforeSame(qs[i].added, acts[i].r.who, |qs[i].added|)
    ensures acts[i].DoMergeRequests? ==> acts[i].r.epoch == acts[i].next.epoch
  {
    hide OrdInv, History, Indexed, BarriersBeforeSame, Apply;
    RunOrd(m, qs, acts, i);
    var q, a := qs[i], acts[i];
    if a.DoMergeBio? {
      MergeBioOrd(q, a.r, a.front, a.sector);
      OrdSeq(q);
      InCensus(q, a.r);
      LastEpochOnly(q, a.r);
    } else if a.DoMergeRequests? {
      MergeRequestsOrd(q, a.r, a.next);
    }
  }

  /** No barrier was added from request w to the n-th addition. */
  ghost predicate BarriersBeforeSame(added: seq<Added>, w: Who, n: nat) {
    w.Client? && w.id < |added| && forall b: nat | w.id <= b < n && b < |added| :: !added[b].hard
  }

  lemma LastEpochOnly(q: Queue, r: Request)
    requires OrdInv(q) && History(q) && r.who.Client? && r in CensusOf(q) && r.epoch == q.epoch
    ensures BarriersBeforeSame(q.added, r.who, |q.added|)
  {
    hide SeqInv, Layout, Barriers, AllStamped;
    EpochOf(q, r);
    forall b: nat | r.who.id <= b < |q.added| ensures !q.added[b].hard {
      if r.who.id < b { EpochsGrow(q.added, q.epoch, r.who.id, b); }
      EpochBelow(q.added, q.epoch, b);
    }
  }

  lemma EpochBelow(added: seq<Added>, epoch: nat, b: nat)
    requires AddedOk(added, epoch) && b < |added|
    ensures added[b].epoch <= epoch && (added[b].hard ==> added[b].epoch < epoch)
  {
    hide Barriers;
    BarriersGrow(added, b + 1, |added|);
    BarriersStep(added, b);
    assert added[..|added|] == added;
  }

  // ---------------------------------------------------------------------------
  // Sequences end once, in order, in every mode
  // ---------------------------------------------------------------------------

  /** In every mode: every client request is in one place or has ended, never both; barriers
      end in the order they were added, each once; and what has ended stays ended. */
  lemma BarriersEndOnce(m: Mode, qs: seq<Queue>, acts: seq<Action>, i: nat)
    requires IsMode(m) && IsRun(m, qs, acts) && i <= |acts|
    ensures Placement(qs[i]) && Reported(qs[i].results, qs[i].added, qs[i].done)
    ensures forall j, k | 0 <= j < k < |qs[i].results| :: qs[i].results[j].0 != qs[i].results[k].0
    ensures i < |acts| ==> Ended(qs[i], qs[i + 1])
  {
    hide Indexed, Consistent, Shapes, Attributes, Stages, BarrierQueue, CensusOf, Apply, Enabled;
    RunSeq(m, qs, acts, i);
    if i < |acts| {
      EndedStep(qs[i], acts[i]);
    }
  }

  /** In every mode a stage completes at most once: when the driver ends a proxy, a sequence is
      in progress and the stage's bit is clear. */
  lemma StagesCompleteOnce(m: Mode, qs: seq<Queue>, acts: seq<Action>, i: nat)
    requires IsMode(m) && IsRun(m, qs, acts) && i < |acts|
    requires acts[i].DoComplete? && !acts[i].r.who.Client?
    ensures qs[i].origBar.Some? && StageOf(acts[i].r.who) !in qs[i].ordseq
  {
    hide SeqInv, Indexed, Apply;
    RunSeq(m, qs, acts, i);
    ProxyEnds(qs[i], acts[i].r);
  }

  // ---------------------------------------------------------------------------
  // When a barrier ends, and with what
  // ---------------------------------------------------------------------------

  ghost predicate SameSequence(q: Queue, q': Queue) {
    q'.ordseq == q.ordseq && q'.origBar == q.origBar && q'.results == q.results
  }

  /** The stage is over: the barrier ends exactly if it was the last one, with the first error
      reported since the sequence began; else only the stage's bit is new. */
  ghost predicate StageOver(q: Queue, q': Queue, stage: nat, error: int) {
    && q.origBar.Some? && q.origBar.value.who.Client? && stage !in q.ordseq
    && if q.ordseq + {stage} == STAGES
       then && q'.ordseq == {} && q'.origBar.None?
            && q'.results == q.results + [(q.origBar.value.who.id, FirstError(q.errs + [error]))]
       else && q'.ordseq == q.ordseq + {stage} && q'.origBar == q.origBar && q'.results == q.results
  }

  lemma CompleteSeqOutcome(q: Queue, stage: nat, error: int)
    requires q.origBar.Some? && q.origBar.value.who.Client? && stage in STAGES && stage !in q.ordseq
    requires q.ordseq <= STAGES && q.orderr == FirstError(q.errs)
    ensures StageOver(q, CompleteSeq(q, {stage}, error).0, stage, error)
  {
    hide FirstError, CurSeq;
    AllStages(q.ordseq + {stage});
    ErrorRecorded(q, error);
  }

  lemma SequenceFacts(q: Queue)
    requires SeqInv(q) && q.origBar.Some?
    ensures q.origBar.value.who.Client? && q.ordseq <= STAGES && q.orderr == FirstError(q.errs)
    ensures CurSeq(q.ordseq) == DRAIN_SEQ ==> DRAIN_SEQ !in q.ordseq
  {
    hide Consistent, Attributes, Reported, BarrierQueue, FirstError;
  }

  lemma ProxyOutcome(q: Queue, r: Request, error: int)
    requires SeqInv(q) && r in q.driver && !r.who.Client?
    ensures Sound(q) && StageOver(q, Complete(q, r, error), StageOf(r.who), error)
  {
    hide SeqInv, Completed, CompleteSeq, StageOver;
    SeqSound(q);
    ProxyEnds(q, r);
    ProxyCompletes(q, r, error);
    SequenceFacts(q);
    var q1 := Uncount(q.(driver := q.driver - {r}), r);
    CompleteSeqOutcome(q1, StageOf(r.who), error);
    SameOutcome(q, q1, Complete(q, r, error), StageOf(r.who), error);
  }

  lemma SameOutcome(q: Queue, q1: Queue, q': Queue, stage: nat, error: int)
    requires StageOver(q1, q', stage, error)
    requires q.origBar == q1.origBar && q.ordseq == q1.ordseq && q.results == q1.results && q.errs == q1.errs
    ensures StageOver(q, q', stage, error)
  {
    hide FirstError;
  }

  lemma ClientOutcome(q: Queue, r: Request, error: int)
    requires SeqInv(q) && r in q.driver && r.who.Client?
    ensures Sound(q)
    ensures SameSequence(q, Complete(q, r, error)) || StageOver(q, Complete(q, r, error), DRAIN_SEQ, 0)
  {
    hide SeqInv, CompleteSeq, StageOver, CurSeq, ReqSeq;
    SeqSound(q);
    if q.origBar.Some? {
      SequenceFacts(q);
      var q1 := Uncount(q.(driver := q.driver - {r}, done := q.done + {r.who.id}), r);
      if CurSeq(q.ordseq) == DRAIN_SEQ {
        CompleteSeqOutcome(q1, DRAIN_SEQ, 0);
        SameOutcome(q, q1, CompleteSeq(q1, {DRAIN_SEQ}, 0).0, DRAIN_SEQ, 0);
      }
    }
  }

  /** The stages of a sequence are all skipped from the start. */
  ghost predicate NothingToDo(m: Mode, inFlight: int) {
    !m.preflush && !m.bar && !m.postflush && !(m.byDrain && inFlight != 0)
  }

  /** The result of a barrier on the dispatch queue that is refused or needs nothing done. */
  ghost predicate EndsAtOnce(q: Queue, result: (nat, int), b: Request) {
    && b in q.head && b.fs && b.hard && b.who == Client(result.0)
    && if q.nextOrdered == NONE then result.1 == EOPNOTSUPP
       else result.1 == 0 && NothingToDo(SequenceMode(q.nextOrdered, b.empty), q.inFlight)
  }

  /** A barrier on the dispatch queue has begun its sequence, with exactly the stages it does not
      need over. */
  ghost predicate BegunFrom(q: Queue, q': Queue, b: Request) {
    && b in q.head && b.fs && b.hard && q.nextOrdered != NONE
    && q'.origBar == Some(b) && q'.ordered == SequenceMode(q.nextOrdered, b.empty)
    && q'.ordseq == {STARTED_SEQ} + SkippedStages(q'.ordered, q'.ordered.byDrain && q.inFlight != 0)
    && q'.results == q.results && q'.errs == [0]
    && !NothingToDo(q'.ordered, q.inFlight)
  }

  ghost predicate EndedAtOnce(q: Queue, result: (nat, int)) {
    exists b :: EndsAtOnce(q, result, b)
  }

  ghost predicate Begun(q: Queue, results: seq<(nat, int)>, q': Queue) {
    exists b :: BegunFrom(q.(results := results), q', b)
  }

  /** What a fetch does to sequences: none in progress is touched; it ends only barriers that are
      refused or need nothing done; and the one it begins, if any, needs something done. */
  ghost predicate FetchedOver(q: Queue, q': Queue) {
    && (q.origBar.Some? ==> SameSequence(q, q'))
    && q.results <= q'.results
    && (forall i | |q.results| <= i < |q'.results| :: EndedAtOnce(q, q'.results[i]))
    && (q.origBar.None? && q'.origBar.Some? ==> Begun(q, q'.results, q'))
  }

  /** An empty barrier on a device that needs no flush has nothing to do but drain. */
  lemma NothingIff(m: Mode, empty: bool, inFlight: int)
    requires IsMode(m) && m != NONE
    ensures NothingToDo(SequenceMode(m, empty), inFlight) <==> empty && !m.preflush && inFlight == 0
  {
  }

  /** start_ordered ends the barrier at once if and only if nothing is to be done: the barrier is
      empty, the mode has no flush before it, and nothing is in flight. */
  lemma StartOutcome(q: Queue)
    requires q.ordseq == {} && q.origBar.None? && q.head != [] && q.nextOrdered != NONE && q.head[0].fs && q.head[0].hard
    ensures var (q', _, found) := StartOrdered(q);
            var nothing := NothingToDo(SequenceMode(q.nextOrdered, q.head[0].empty), q.inFlight);
            && (found <==> !nothing)
            && (nothing ==> && q'.head == q.head[1..] && q'.origBar.None?
                            && q'.results == q.results + if q.head[0].who.Client? then [(q.head[0].who.id, 0)] else [])
            && (!nothing ==> BegunFrom(q, q', q.head[0]))
            && q'.nextOrdered == q.nextOrdered && q'.inFlight == q.inFlight
            && (IsMode(q.nextOrdered) ==> (nothing <==> q.head[0].empty && !q.nextOrdered.preflush && q.inFlight == 0))
  {
    hide SequenceMode, CurSeq;
    if IsMode(q.nextOrdered) {
      NothingIff(q.nextOrdered, q.head[0].empty, q.inFlight);
    }
    var m := SequenceMode(q.nextOrdered, q.head[0].empty);
    var skip := SkippedStages(m, m.byDrain && q.inFlight != 0);
    AllStages(q.ordseq + {STARTED_SEQ} + skip);
    assert {STARTED_SEQ} + skip == STAGES <==> NothingToDo(m, q.inFlight);
  }

  /** One look at the front of the dispatch queue. */
  lemma DoOrderedOutcome(q: Queue)
    requires Sound(q) && q.head != []
    ensures DoOrdered(q).2 ==> FetchedOver(q, DoOrdered(q).0)
    ensures !DoOrdered(q).2 ==> EndedFront(q, DoOrdered(q).0)
  {
    hide StartOrdered, ReqSeq, CurSeq, SequenceMode;
    var b := q.head[0];
    if q.ordseq == {} && b.fs && b.hard && q.nextOrdered != NONE {
      StartOutcome(q);
      var q' := StartOrdered(q).0;
      if q'.origBar.Some? {
        assert BegunFrom(q.(results := q'.results), q', b);
      }
    }
  }

  /** The barrier at the front has ended at once. */
  ghost predicate EndedFront(q: Queue, q': Queue) {
    && q.head != [] && q'.head == q.head[1..] && q.origBar.None? && q'.origBar.None?
    && q'.nextOrdered == q.nextOrdered && q'.inFlight == q.inFlight
    && (q'.results == q.results
        || exists id: nat, e: int :: q'.results == q.results + [(id, e)] && EndsAtOnce(q, (id, e), q.head[0]))
  }

  lemma {:induction false} NextRequestOutcome(q: Queue)
    requires Sound(q)
    ensures FetchedOver(q, NextRequest(q).0)
    decreases |q.head|
  {
    hide DoOrdered, FetchedOver, EndedFront;
    if q.head != [] {
      DoOrderedProgress(q);
      DoOrderedOutcome(q);
      if !DoOrdered(q).2 {
        var q1 := DoOrdered(q).0;
        NextRequestOutcome(q1);
        OverAfterFront(q, q1, NextRequest(q1).0);
      }
    } else {
      OverNothing(q);
    }
  }

  lemma OverNothing(q: Queue)
    ensures FetchedOver(q, q)
  {
  }

  lemma OverAfterFront(q: Queue, q1: Queue, q2: Queue)
    requires EndedFront(q, q1) && FetchedOver(q1, q2)
    ensures FetchedOver(q, q2)
  {
    hide SequenceMode, SkippedStages, NothingToDo;
    forall i | |q.results| <= i < |q2.results| ensures EndedAtOnce(q, q2.results[i]) {
      if i >= |q1.results| {
        assert EndedAtOnce(q1, q2.results[i]);
        var b :| EndsAtOnce(q1, q2.results[i], b);
        assert EndsAtOnce(q, q2.results[i], b);
      } else {
        assert q2.results[i] == q1.results[i];
      }
    }
    if q2.origBar.Some? {
      var b :| BegunFrom(q1.(results := q2.results), q2, b);
      assert BegunFrom(q.(results := q2.results), q2, b);
    }
  }

  lemma FetchOutcome(q: Queue)
    requires Sound(q)
    ensures FetchedOver(q, Fetch(q).0) && FetchedOver(q, Peek(q))
  {
    hide NextRequest, Sound;
    NextRequestOutcome(q);
    SameOver(q, NextRequest(q).0, Fetch(q).0);
    SameOver(q, NextRequest(q).0, Peek(q));
  }

  lemma SameOver(q: Queue, q1: Queue, q2: Queue)
    requires FetchedOver(q, q1) && SameSequence(q1, q2) && q2.ordered == q1.ordered && q2.errs == q1.errs
    ensures FetchedOver(q, q2)
  {
    hide SequenceMode, SkippedStages, NothingToDo;
    if q.origBar.None? && q2.origBar.Some? {
      var b :| BegunFrom(q.(results := q1.results), q1, b);
      assert BegunFrom(q.(results := q2.results), q2, b);
    }
  }

  /** In every mode: when the driver ends a proxy, its stage is over, and the barrier ends then
      if and only if no other stage is open; the end of the drain is the only other stage end;
      a fetch touches no sequence in progress and ends only barriers that are refused or have no
      stage to wait for; and no other step touches the sequence. */
  lemma BarrierEndsWithItsStages(m: Mode, qs: seq<Queue>, acts: seq<Action>, i: nat)
    requires IsMode(m) && IsRun(m, qs, acts) && i < |acts|
    ensures var (q, q') := (qs[i], qs[i + 1]);
            match acts[i]
            case DoComplete(r, error) =>
              if r.who.Client? then SameSequence(q, q') || StageOver(q, q', DRAIN_SEQ, 0)
              else StageOver(q, q', StageOf(r.who), error)
            case DoFetch => FetchedOver(q, q')
            case DoPeek => FetchedOver(q, q')
            case _ => SameSequence(q, q')
  {
    hide SeqInv, Indexed, Complete, StageOver, Fetch, Peek, FetchedOver;
    RunSeq(m, qs, acts, i);
    match acts[i]
    case DoComplete(r, error) =>
      if r.who.Client? {
        ClientOutcome(qs[i], r, error);
      } else {
        ProxyOutcome(qs[i], r, error);
      }
    case DoFetch => FetchOutcome(qs[i]);
    case DoPeek => FetchOutcome(qs[i]);
    case _ =>
  }

  /** While a sequence is in progress some stage is open, and a flush or barrier stage is open
      exactly while its proxy is queued or with the driver. */
  lemma OpenStagesAreHeld(m: Mode, qs: seq<Queue>, acts: seq<Action>, i: nat)
    requires IsMode(m) && IsRun(m, qs, acts) && i <= |acts| && qs[i].origBar.Some?
    ensures STARTED_SEQ in qs[i].ordseq && qs[i].ordseq < STAGES
    ensures forall w: Who | !w.Client? :: StageOf(w) !in qs[i].ordseq <==> Held(CensusOf(qs[i]), w)
  {
    hide Indexed, Consistent, Shapes, Attributes, Reported, BarrierQueue, CensusOf, Apply, Enabled;
    RunSeq(m, qs, acts, i);
    AllStages(qs[i].ordseq);
  }

  // ---------------------------------------------------------------------------
  // The stage-order warning
  // ---------------------------------------------------------------------------

  /** No call of blk_do_ordered made by a fetch from q warns. */
  ghost predicate NeverWarns(q: Queue)
    requires Sound(q)
    decreases |q.head|
  {
    q.head != [] ==>
      && !WarnsOutOfOrder(q)
      && (!DoOrdered(q).2 ==> (DoOrderedProgress(q); NeverWarns(DoOrdered(q).0)))
  }

  lemma NoWarning(q: Queue)
    requires OrdInv(q)
    ensures Sound(q) && !WarnsOutOfOrder(q)
  {
    hide SeqInv, HeadOk, FsOf;
    OrdSeq(q);
    if q.ordseq != {} && q.head != [] {
      NotDone(q);
      assert q.head[0] in q.head;
      if Plain(q.head[0]) {
        FrontSeq(q);
      } else if IsBarrier(q.head[0]) {
        NextBarrierBlocked(q);
      } else if !q.head[0].who.Client? {
        QueuedStageOpen(q);
      }
    }
  }

  lemma QueuedStageOpen(q: Queue)
    requires SeqInv(q) && q.ordseq != {} && q.head != [] && !q.head[0].who.Client?
    ensures StageOf(q.head[0].who) !in q.ordseq
  {
    hide Base;
    assert q.head[0] in q.head;
    InCensus(q, q.head[0]);
    assert Held(CensusOf(q), q.head[0].who);
  }

  lemma {:induction false} FetchNeverWarns(q: Queue)
    requires OrdInv(q)
    ensures Sound(q) && NeverWarns(q)
    decreases |q.head|
  {
    hide OrdInv, DoOrdered, WarnsOutOfOrder;
    NoWarning(q);
    if q.head != [] {
      DoOrderedOrd(q);
      DoOrderedProgress(q);
      if !DoOrdered(q).2 {
        FetchNeverWarns(DoOrdered(q).0);
      }
    }
  }

  /** In a drain mode the stage-order warning of blk_do_ordered never fires, whatever is
      requeued. */
  lemma WarningUnreachable(m: Mode, qs: seq<Queue>, acts: seq<Action>, i: nat)
    requires IsDrainMode(m) && IsRun(m, qs, acts) && i <= |acts|
    ensures Sound(qs[i]) && NeverWarns(qs[i])
  {
    hide OrdInv, Indexed, History, NeverWarns;
    RunOrd(m, qs, acts, i);
    FetchNeverWarns(qs[i]);
  }
}
