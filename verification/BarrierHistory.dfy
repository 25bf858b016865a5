/** Every step keeps the order, the record of what was added, and what has ended. */
module BarrierHistory {
  import opened Common
  import opened Barrier
  import opened BarrierPlacement
  import opened BarrierSequence
  import opened BarrierSteps
  import opened BarrierOrder

  // ---------------------------------------------------------------------------
  // The remaining steps keep the order
  // ---------------------------------------------------------------------------

  lemma AddSortOrd(q: Queue, write: bool, discard: bool, sector: int)
    requires OrdInv(q)
    ensures OrdInv(AddSort(q, write, discard, sector))
  {
    hide SeqInv, HeadOk, DriverOk, DrainDone, StagesBefore, FsOf, IsDrainMode;
    AddSortKeeps(q, write, discard, sector);
  }

  lemma HeadAppend(head: seq<Request>, r: Request, cur: nat, next: nat, last: nat, last': nat)
    requires HeadOk(head, cur, next, last) && last <= last' && r.epoch == last && r.who.Client?
    requires InBounds(r, cur, next, last')
    ensures HeadOk(head + [r], cur, next, last')
  {
    hide Ordered;
    assert FitsAt(head, |head|, r) by {
      FitsLast(head, r, cur, next, last);
    }
    OrderedInsert(head, |head|, r);
    assert InsertAt(head, |head|, r) == head + [r];
    assert forall x | x in head + [r] :: x in head || x == r;
  }

  lemma FitsLast(head: seq<Request>, r: Request, cur: nat, next: nat, last: nat)
    requires HeadOk(head, cur, next, last) && r.epoch == last && r.who.Client?
    ensures FitsAt(head, |head|, r)
  {
    forall j | 0 <= j < |head| && !Special(head[j]) ensures Ord(head[j]) <= Ord(r) {
      assert head[j] in head;
    }
  }

  lemma EpochsBounded(q: Queue)
    requires SeqInv(q)
    ensures NextEpoch(q) <= q.epoch
    ensures q.ordseq != {} ==> |q.results| < q.epoch
  {
    hide Consistent, Attributes, Reported, Held, Stages, Epochs, Range;
  }

  lemma AddBackOrd(q: Queue, fs: bool, hard: bool, empty: bool, write: bool, sector: int)
    requires OrdInv(q) && q.elev == {} && (hard ==> fs)
    ensures OrdInv(AddBack(q, fs, hard, empty, write, sector))
  {
    hide SeqInv, HeadOk, DriverOk, StagesBefore, FsOf, IsDrainMode;
    AddBackKeeps(q, fs, hard, empty, write, sector);
    var r := NewRequest(q, fs, hard, empty, write, false, sector).(soft := true);
    EpochsBounded(q);
    HeadAppend(q.head, r, |q.results|, NextEpoch(q), q.epoch, if hard then q.epoch + 1 else q.epoch);
    assert forall x | x in q.head + [r] :: x in q.head || x == r;
  }

  lemma AddFrontOrd(q: Queue, write: bool, sector: int)
    requires OrdInv(q)
    ensures OrdInv(AddFront(q, write, sector))
  {
    hide SeqInv, HeadOk, DriverOk, StagesBefore, FsOf, IsDrainMode;
    AddFrontKeeps(q, write, sector);
    var r := NewRequest(q, false, false, false, write, false, sector).(soft := true);
    HeadInsert(q.head, 0, r, |q.results|, NextEpoch(q), q.epoch);
    assert InsertAt(q.head, 0, r) == [r] + q.head;
    assert forall x | x in [r] + q.head :: x in q.head || x == r;
  }

  /** A request that awaits dispatching order has the barrier of its epoch behind it. */
  lemma BarrierBehind(q: Queue, j: nat)
    requires OrdInv(q) && j < |q.head| && Plain(q.head[j]) && NextEpoch(q) <= q.head[j].epoch < q.epoch
    ensures exists k :: j < k < |q.head| && q.head[k].hard
  {
    hide Consistent, Attributes, Reported, Held, Stages, BarrierQueue;
    BarrierThere(q.head, NextEpoch(q), q.epoch, q.head[j].epoch);
    var b :| b in q.head && IsBarrier(b) && b.epoch == q.head[j].epoch;
    FsBarrier(q, b);
    var k :| 0 <= k < |q.head| && q.head[k] == b;
    assert Ord(q.head[j]) < Ord(q.head[k]);
  }

  /** The backward scan of elv_dispatch_sort never passes a request of an earlier epoch. */
  lemma ScanStaysInEpoch(q: Queue, i: nat, j: nat)
    requires i <= j < |q.head| && !Special(q.head[j])
    requires forall k | i <= k < |q.head| :: !q.head[k].hard && !q.head[k].soft && !q.head[k].started
    requires OrdInv(q)
    ensures q.head[j].epoch == q.epoch
  {
    hide Consistent, Attributes, Reported, Held, Stages, BarrierQueue;
    var r := q.head[j];
    assert r in q.head;
    ProxiesHard(q, r);
    if r.epoch < q.epoch {
      BarrierBehind(q, j);
    }
  }

  lemma ProxiesHard(q: Queue, r: Request)
    requires SeqInv(q) && r in q.head
    ensures !r.who.Client? ==> r.hard
  {
    hide Consistent, Reported, Held, Stages, BarrierQueue;
    assert r in CensusOf(q);
  }

  lemma DispatchFits(q: Queue, r: Request, i: nat)
    requires OrdInv(q) && r in q.elev && i <= |q.head|
    requires forall k | i <= k < |q.head| :: !q.head[k].hard && !q.head[k].soft && !q.head[k].started
    ensures FitsAt(q.head, i, r)
  {
    hide SeqInv;
    FitsLast(q.head, r, |q.results|, NextEpoch(q), q.epoch);
    forall j | i <= j < |q.head| && !Special(q.head[j]) ensures Ord(r) <= Ord(q.head[j]) {
      ScanStaysInEpoch(q, i, j);
    }
  }

  lemma DispatchAtOrd(q: Queue, r: Request, i: nat)
    requires OrdInv(q) && r in q.elev && i <= |q.head|
    requires forall k | i <= k < |q.head| :: !q.head[k].hard && !q.head[k].soft && !q.head[k].started
    ensures OrdInv(Undock(q, r).(head := InsertAt(q.head, i, r)))
  {
    hide SeqInv, HeadOk, DriverOk, StagesBefore, FsOf, IsDrainMode, FitsAt, InsertAt;
    DispatchAt(q, r, i);
    DispatchFits(q, r, i);
    EpochsBounded(q);
    HeadInsert(q.head, i, r, |q.results|, NextEpoch(q), q.epoch);
    InsertMembers(q.head, i, r);
  }

  lemma DispatchOrd(q: Queue, r: Request, boundary: int)
    requires OrdInv(q) && r in q.elev
    ensures OrdInv(DispatchSort(q, r, boundary))
    ensures OrdInv(DispatchTail(q, r))
  {
    hide OrdInv, Undock;
    DispatchAtOrd(q, r, SortIndex(q.head, r, boundary, |q.head|));
    DispatchAtOrd(q, r, |q.head|);
    assert InsertAt(q.head, |q.head|, r) == q.head + [r];
  }

  lemma MergeBioOrd(q: Queue, r: Request, front: bool, sector: int)
    requires OrdInv(q) && Indexed(q) && MergeCandidate(q, r)
    ensures OrdInv(MergeBio(q, r, front, sector))
    ensures r in q.elev && Plain(r) && r.epoch == q.epoch
  {
    hide SeqInv, HeadOk, DriverOk, DrainDone, StagesBefore, FsOf, IsDrainMode, MergeIndexed;
    MergeBioKeeps(q, r, front, sector);
    CandidateDocked(q, r);
  }

  lemma MergeRequestsOrd(q: Queue, r: Request, next: Request)
    requires OrdInv(q) && r in q.elev && next in q.elev && r.who != next.who
    ensures OrdInv(MergeRequests(q, r, next))
    ensures r.epoch == next.epoch
  {
    hide SeqInv, HeadOk, DriverOk, DrainDone, StagesBefore, FsOf, IsDrainMode;
    MergeRequestsKeeps(q, r, next);
  }

  lemma BarErrorOrd(q: Queue, error: int)
    requires OrdInv(q)
    ensures OrdInv(RecordError(q, error))
  {
    hide SeqInv, HeadOk, ElevOk, DriverOk, DrainDone, StagesBefore, FsOf, IsDrainMode;
    BarErrorKeeps(q, error);
  }

  // ---------------------------------------------------------------------------
  // History: epochs count barriers, and bios keep to their request's epoch
  // ---------------------------------------------------------------------------

  ghost function Barriers(added: seq<Added>): nat {
    if added == [] then 0 else Barriers(added[..|added| - 1]) + if added[|added| - 1].hard then 1 else 0
  }

  ghost predicate AddedOk(added: seq<Added>, epoch: nat) {
    && epoch == Barriers(added)
    && (forall id: nat | id < |added| :: added[id].epoch == Barriers(added[..id]))
  }

  ghost predicate Stamped(r: Request) {
    forall k | 0 <= k < |r.bios| :: r.bios[k] == r.epoch
  }

  ghost predicate AllStamped(head: seq<Request>, elev: set<Request>, driver: set<Request>) {
    && (forall r | r in head :: Stamped(r))
    && (forall r | r in elev :: Stamped(r))
    && (forall r | r in driver :: Stamped(r))
  }

  ghost predicate History(q: Queue) {
    AddedOk(q.added, q.epoch) && AllStamped(q.head, q.elev, q.driver)
  }

  lemma AddedMore(added: seq<Added>, epoch: nat, a: Added)
    requires AddedOk(added, epoch) && a.epoch == epoch
    ensures AddedOk(added + [a], if a.hard then epoch + 1 else epoch)
  {
    var added' := added + [a];
    assert added'[..|added|] == added;
    forall id: nat | id < |added'| ensures added'[id].epoch == Barriers(added'[..id]) {
      if id < |added| {
        assert added'[..id] == added[..id];
      }
    }
  }

  /** Earlier additions have smaller epochs; a barrier closes its epoch. */
  lemma {:induction false} EpochsGrow(added: seq<Added>, epoch: nat, i: nat, j: nat)
    requires AddedOk(added, epoch) && i < j < |added|
    ensures added[i].epoch <= added[j].epoch
    ensures added[i].hard ==> added[i].epoch < added[j].epoch
  {
    hide Barriers;
    BarriersGrow(added, i + 1, j);
    BarriersStep(added, i);
  }

  lemma BarriersStep(added: seq<Added>, i: nat)
    requires i < |added|
    ensures Barriers(added[..i + 1]) == Barriers(added[..i]) + if added[i].hard then 1 else 0
  {
    assert added[..i + 1][..i] == added[..i];
  }

  lemma {:induction false} BarriersGrow(added: seq<Added>, i: nat, j: nat)
    requires i <= j <= |added|
    ensures Barriers(added[..i]) <= Barriers(added[..j])
    decreases j
  {
    if i < j {
      BarriersGrow(added, i, j - 1);
      BarriersStep(added, j - 1);
    }
  }

  /** What has ended stays ended. */
  ghost predicate Ended(q: Queue, q': Queue) {
    q.results <= q'.results && q.done <= q'.done
  }

  /** Nothing but the additions changes the record, and requests keep their bios. */
  ghost predicate SameHistory(q: Queue, q': Queue) {
    && q'.added == q.added
    && q'.epoch == q.epoch
    && (forall r | r in q'.head :: Stamped(r) || r in q.head)
    && q'.elev == q.elev
    && q'.driver == q.driver
    && q'.hash == q.hash
    && q'.lastMerge == q.lastMerge
    && Ended(q, q')
  }

  lemma StartOrderedSame(q: Queue)
    requires q.head != []
    ensures SameHistory(q, StartOrdered(q).0)
  {
    hide Proxies, SequenceMode, SkippedStages, CurSeq;
    var b := q.head[0];
    var m := SequenceMode(q.nextOrdered, b.empty);
    ProxiesStamped(m, b);
    assert forall r | r in Proxies(m, b) + q.head[1..] :: r in Proxies(m, b) || r in q.head;
  }

  lemma ProxiesStamped(m: Mode, b: Request)
    ensures forall r | r in Proxies(m, b) :: Stamped(r)
  {
  }

  lemma DoOrderedSame(q: Queue)
    requires Sound(q) && q.head != []
    ensures SameHistory(q, DoOrdered(q).0)
  {
    hide StartOrdered, Stamped;
    StartOrderedSame(q);
    assert forall r | r in q.head[1..] :: r in q.head;
  }

  lemma {:induction false} NextRequestSame(q: Queue)
    requires Sound(q)
    ensures SameHistory(q, NextRequest(q).0)
    decreases |q.head|
  {
    hide DoOrdered, Stamped;
    if q.head != [] {
      DoOrderedSame(q);
      DoOrderedProgress(q);
      if !DoOrdered(q).2 {
        NextRequestSame(DoOrdered(q).0);
      }
    }
  }

  lemma FetchHistory(q: Queue)
    requires Sound(q) && History(q)
    ensures History(Fetch(q).0) && History(Peek(q))
    ensures Fetch(q).1.Some? ==> Stamped(Fetch(q).1.value)
  {
    hide NextRequest, AddedOk;
    NextRequestSame(q);
    var q1 := NextRequest(q).0;
    if q1.head != [] {
      assert q1.head[0] in q1.head;
      assert forall r | r in q1.head[1..] :: r in q1.head;
    }
  }

  ghost predicate SamePlaces(q: Queue, q': Queue) {
    && q'.added == q.added
    && q'.epoch == q.epoch
    && q'.head == q.head
    && q'.elev == q.elev
    && q'.driver == q.driver
    && q'.hash == q.hash
    && q'.lastMerge == q.lastMerge
    && Ended(q, q')
  }

  lemma CompleteSeqSame(q: Queue, seqs: set<nat>, error: int)
    requires q.origBar.Some?
    ensures SamePlaces(q, CompleteSeq(q, seqs, error).0)
  {
  }

  lemma CompletedSame(q: Queue, r: Request)
    requires Sound(q)
    ensures SamePlaces(q, Completed(q, r))
  {
    hide ReqSeq, CurSeq, CompleteSeq;
    if q.ordseq != {} {
      CompleteSeqSame(Uncount(q, r), {DRAIN_SEQ}, 0);
    }
  }

  lemma CompleteHistory(q: Queue, r: Request, error: int)
    requires Sound(q) && History(q)
    ensures History(Complete(q, r, error))
  {
    hide Completed, CompleteSeq, AddedOk, Stamped;
    var q1 := q.(driver := q.driver - {r});
    if r.who.Client? {
      CompletedSame(q1.(done := q1.done + {r.who.id}), r);
    } else {
      CompletedSame(q1, r);
      var q2 := Completed(q1, r);
      if q2.origBar.Some? { CompleteSeqSame(q2, {StageOf(r.who)}, error); }
    }
  }

  lemma RequeueHistory(q: Queue, r: Request)
    requires Sound(q) && History(q) && r in q.driver
    ensures History(Requeue(q, r))
  {
    hide RequeueIndex, ReqSeq, AddedOk, InsertAt;
    var q1 := Uncount(q.(driver := q.driver - {r}), r);
    var r1 := r.(started := false, soft := true);
    InsertMembers(q.head, if q1.ordseq == {} then 0 else RequeueIndex(q1, ReqSeq(q1, r1), 0), r1);
    assert Stamped(r) && Stamped(r1);
  }

  lemma AddHistory(q: Queue, r: Request, hard: bool)
    requires History(q) && r.epoch == q.epoch && r.bios == [q.epoch] && r.hard == hard
    ensures AddedOk(Record(q, r).added, if hard then q.epoch + 1 else q.epoch)
    ensures Stamped(r)
  {
    AddedMore(q.added, q.epoch, Added(r.fs, r.hard, r.epoch));
  }

  lemma AddSortHistory(q: Queue, write: bool, discard: bool, sector: int)
    requires History(q)
    ensures History(AddSort(q, write, discard, sector))
  {
    hide AddedOk, Stamped;
    AddHistory(q, NewRequest(q, true, false, false, write, discard, sector), false);
  }

  lemma AddBackHistory(q: Queue, fs: bool, hard: bool, empty: bool, write: bool, sector: int)
    requires History(q)
    ensures History(AddBack(q, fs, hard, empty, write, sector))
  {
    hide AddedOk, Stamped;
    AddHistory(q, NewRequest(q, fs, hard, empty, write, false, sector).(soft := true), hard);
  }

  lemma AddFrontHistory(q: Queue, write: bool, sector: int)
    requires History(q)
    ensures History(AddFront(q, write, sector))
  {
    hide AddedOk, Stamped;
    AddHistory(q, NewRequest(q, false, false, false, write, false, sector).(soft := true), false);
  }

  lemma MergeBioHistory(q: Queue, r: Request, front: bool, sector: int)
    requires History(q) && r in q.elev && r.epoch == q.epoch
    ensures History(MergeBio(q, r, front, sector))
  {
    hide AddedOk;
    var r1 := if front then r.(bios := [q.epoch] + r.bios, sector := sector) else r.(bios := r.bios + [q.epoch]);
    assert Stamped(r);
    assert Stamped(r1);
  }

  lemma MergeRequestsHistory(q: Queue, r: Request, next: Request)
    requires History(q) && r in q.elev && next in q.elev && next.epoch == r.epoch
    ensures History(MergeRequests(q, r, next))
  {
    hide AddedOk;
    assert Stamped(r) && Stamped(next);
    assert Stamped(r.(bios := r.bios + next.bios));
  }

  lemma DispatchHistory(q: Queue, r: Request, boundary: int)
    requires History(q) && r in q.elev
    ensures History(DispatchSort(q, r, boundary)) && History(DispatchTail(q, r))
  {
    hide AddedOk, Stamped, InsertAt;
    InsertMembers(q.head, SortIndex(q.head, r, boundary, |q.head|), r);
  }

  // ---------------------------------------------------------------------------
  // Every step
  // ---------------------------------------------------------------------------

  lemma FetchSame(q: Queue)
    requires Sound(q)
    ensures Fetch(q).0.elev == Peek(q).elev == q.elev
    ensures Fetch(q).0.hash == Peek(q).hash == q.hash
    ensures Fetch(q).0.lastMerge == Peek(q).lastMerge == q.lastMerge
    ensures Ended(q, Fetch(q).0) && Ended(q, Peek(q))
  {
    hide NextRequest, Stamped;
    NextRequestSame(q);
  }

  lemma CompletePlaces(q: Queue, r: Request, error: int)
    requires Sound(q)
    ensures var q' := Complete(q, r, error);
            q'.elev == q.elev && q'.hash == q.hash && q'.lastMerge == q.lastMerge && Ended(q, q')
  {
    hide Completed, CompleteSeq;
    var q1 := q.(driver := q.driver - {r});
    if r.who.Client? {
      CompletedSame(q1.(done := q1.done + {r.who.id}), r);
    } else {
      CompletedSame(q1, r);
      var q2 := Completed(q1, r);
      if q2.origBar.Some? { CompleteSeqSame(q2, {StageOf(r.who)}, error); }
    }
  }

  lemma IndexedStep(q: Queue, a: Action)
    requires SeqInv(q) && Indexed(q) && Enabled(q, a)
    ensures Sound(q) && Indexed(Apply(q, a))
  {
    hide SeqInv, MergeIndexed, Fetch, Peek, Complete, Requeue, InsertAt, SortIndex;
    SeqSound(q);
    match a
    case DoAddSort(write, discard, sector) =>
      IndexedMore(q.elev, q.hash, q.lastMerge, NewRequest(q, true, false, false, write, discard, sector));
    case DoMergeBio(r, front, sector) => MergeBioKeeps(q, r, front, sector);
    case DoMergeRequests(r, next) =>
      IndexedMerged(q.elev, q.hash, q.lastMerge, r, next, r.(bios := r.bios + next.bios));
    case DoDispatchSort(r, boundary) => IndexedUndocked(q.elev, q.hash, q.lastMerge, r);
    case DoDispatchTail(r) => IndexedUndocked(q.elev, q.hash, q.lastMerge, r);
    case DoPeek => FetchSame(q);
    case DoFetch => FetchSame(q);
    case DoComplete(r, error) => CompletePlaces(q, r, error);
    case DoRequeue(r) => RequeueSame(q, r);
    case _ =>
  }

  lemma RequeueSame(q: Queue, r: Request)
    requires Sound(q)
    ensures Requeue(q, r).elev == q.elev && Requeue(q, r).hash == q.hash && Requeue(q, r).lastMerge == q.lastMerge
    ensures Ended(q, Requeue(q, r))
  {
  }

  lemma EndedStep(q: Queue, a: Action)
    requires Sound(q)
    ensures Ended(q, Apply(q, a))
  {
    hide Fetch, Peek, Complete, Requeue, InsertAt, SortIndex;
    match a
    case DoPeek => FetchSame(q);
    case DoFetch => FetchSame(q);
    case DoComplete(r, error) => CompletePlaces(q, r, error);
    case DoRequeue(r) => RequeueSame(q, r);
    case _ =>
  }

  lemma SeqStep(q: Queue, a: Action)
    requires SeqInv(q) && Indexed(q) && Enabled(q, a)
    ensures Sound(q) && SeqInv(Apply(q, a))
  {
    hide SeqInv, MergeIndexed, Fetch, Peek, Complete, Requeue, MergeBio, MergeRequests, DispatchSort, DispatchTail,
         AddSort, AddBack, AddFront, RecordError, MergeCandidate;
    SeqSound(q);
    match a
    case DoAddSort(write, discard, sector) => AddSortKeeps(q, write, discard, sector);
    case DoAddBack(fs, hard, empty, write, sector) => AddBackKeeps(q, fs, hard, empty, write, sector);
    case DoAddFront(write, sector) => AddFrontKeeps(q, write, sector);
    case DoMergeBio(r, front, sector) => MergeBioKeeps(q, r, front, sector);
    case DoMergeRequests(r, next) => MergeRequestsKeeps(q, r, next);
    case DoDispatchSort(r, boundary) => DispatchKeeps(q, r, boundary);
    case DoDispatchTail(r) => DispatchKeeps(q, r, 0);
    case DoPeek => PeekKeeps(q);
    case DoFetch => FetchKeeps(q);
    case DoComplete(r, error) => CompleteKeeps(q, r, error);
    case DoBarError(error) => BarErrorKeeps(q, error);
    case DoRequeue(r) => RequeueKeeps(q, r);
  }

  predicate IsAdd(a: Action) {
    a.DoAddSort? || a.DoAddBack? || a.DoAddFront? || a.DoMergeBio? || a.DoMergeRequests?
  }

  lemma AddStepOrd(q: Queue, a: Action)
    requires OrdInv(q) && Indexed(q) && Enabled(q, a) && IsAdd(a)
    ensures Sound(q) && OrdInv(Apply(q, a))
  {
    hide OrdInv, MergeIndexed, MergeBio, MergeRequests, AddSort, AddBack, AddFront, MergeCandidate;
    OrdSeq(q);
    match a
    case DoAddSort(write, discard, sector) => AddSortOrd(q, write, discard, sector);
    case DoAddBack(fs, hard, empty, write, sector) => AddBackOrd(q, fs, hard, empty, write, sector);
    case DoAddFront(write, sector) => AddFrontOrd(q, write, sector);
    case DoMergeBio(r, front, sector) => MergeBioOrd(q, r, front, sector);
    case DoMergeRequests(r, next) => MergeRequestsOrd(q, r, next);
  }

  lemma OrdStep(q: Queue, a: Action)
    requires OrdInv(q) && Indexed(q) && Enabled(q, a)
    ensures Sound(q) && OrdInv(Apply(q, a))
  {
    hide OrdInv, Indexed, Fetch, Peek, Complete, Requeue, DispatchSort, DispatchTail, RecordError, MergeCandidate;
    OrdSeq(q);
    if IsAdd(a) {
      AddStepOrd(q, a);
    } else {
      match a
      case DoDispatchSort(r, boundary) => DispatchOrd(q, r, boundary);
      case DoDispatchTail(r) => DispatchOrd(q, r, 0);
      case DoPeek => PeekOrd(q);
      case DoFetch => FetchOrd(q);
      case DoComplete(r, error) => CompleteOrd(q, r, error);
      case DoBarError(error) => BarErrorOrd(q, error);
      case DoRequeue(r) => RequeueOrd(q, r);
    }
  }

  lemma AddStepHistory(q: Queue, a: Action)
    requires OrdInv(q) && Indexed(q) && History(q) && Enabled(q, a) && IsAdd(a)
    ensures Sound(q) && History(Apply(q, a))
  {
    hide OrdInv, MergeIndexed, MergeBio, MergeRequests, AddSort, AddBack, AddFront, History, MergeCandidate;
    OrdSeq(q);
    match a
    case DoAddSort(write, discard, sector) => AddSortHistory(q, write, discard, sector);
    case DoAddBack(fs, hard, empty, write, sector) => AddBackHistory(q, fs, hard, empty, write, sector);
    case DoAddFront(write, sector) => AddFrontHistory(q, write, sector);
    case DoMergeBio(r, front, sector) =>
      MergeBioOrd(q, r, front, sector);
      MergeBioHistory(q, r, front, sector);
    case DoMergeRequests(r, next) =>
      MergeRequestsOrd(q, r, next);
      MergeRequestsHistory(q, r, next);
  }

  lemma HistoryStep(q: Queue, a: Action)
    requires OrdInv(q) && Indexed(q) && History(q) && Enabled(q, a)
    ensures Sound(q) && History(Apply(q, a))
  {
    hide OrdInv, Indexed, Fetch, Peek, Complete, Requeue, DispatchSort, DispatchTail, RecordError, History, MergeCandidate;
    OrdSeq(q);
    if IsAdd(a) {
      AddStepHistory(q, a);
    } else {
      match a
      case DoDispatchSort(r, boundary) => DispatchHistory(q, r, boundary);
      case DoDispatchTail(r) => DispatchHistory(q, r, 0);
      case DoPeek => FetchHistory(q);
      case DoFetch => FetchHistory(q);
      case DoComplete(r, error) => CompleteHistory(q, r, error);
      case DoBarError(error) => ErrorHistory(q, error);
      case DoRequeue(r) => RequeueHistory(q, r);
    }
  }

  lemma ErrorHistory(q: Queue, error: int)
    requires History(q)
    ensures History(RecordError(q, error))
  {
  }
}
