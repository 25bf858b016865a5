/** Every step of the protocol keeps the sequence invariant, in every mode. */
module BarrierSteps {
  import opened Common
  import opened Barrier
  import opened BarrierPlacement
  import opened BarrierSequence

  // ---------------------------------------------------------------------------
  // A request changes place or flags
  // ---------------------------------------------------------------------------

  ghost predicate SameRequest(x: Request, y: Request) {
    x.who == y.who && x.fs == y.fs && x.hard == y.hard && x.epoch == y.epoch && x.color == y.color
  }

  lemma StagesSame(c: Census, c': Census, ordseq: set<nat>, pending: set<nat>)
    requires Stages(c, ordseq, pending)
    requires forall w: Who | !w.Client? :: Held(c', w) <==> Held(c, w)
    ensures Stages(c', ordseq, pending)
  {
    hide Held;
  }

  lemma AttributesReplaced(c: Census, x: Request, y: Request)
    requires Attributes(c) && x in c && SameRequest(x, y)
    ensures Attributes(c - multiset{x} + multiset{y})
  {
    assert forall r | r in c - multiset{x} + multiset{y} :: r in c || r == y;
  }

  /** q' is q with one request moved or reflagged. */
  ghost predicate Moved(q: Queue, q': Queue, x: Request, y: Request) {
    && x in CensusOf(q)
    && SameRequest(x, y)
    && CensusOf(q') == CensusOf(q) - multiset{x} + multiset{y}
    && Epochs(q'.head) == Epochs(q.head)
    && q' == q.(head := q'.head, elev := q'.elev, driver := q'.driver, inFlight := q'.inFlight,
                hash := q'.hash, lastMerge := q'.lastMerge)
  }

  lemma MovedKeeps(q: Queue, q': Queue, x: Request, y: Request)
    requires SeqInv(q) && Moved(q, q', x, y)
    requires Shapes(q'.head, q'.elev, q'.driver, q'.origBar)
    requires Drained(q', q'.ordseq)
    ensures SeqInv(q')
  {
    hide Consistent, Attributes, Reported, Held, Shapes, Stages, CensusOf, Epochs, Drained;
    Replaced(CensusOf(q), q.added, q.done, x, y);
    AttributesReplaced(CensusOf(q), x, y);
    StagesSame(CensusOf(q), CensusOf(q'), q.ordseq, {});
  }

  lemma InsertTotal(head: seq<Request>, elev: set<Request>, driver: set<Request>, o: Option<Request>, i: nat, y: Request)
    requires i <= |head|
    ensures Total(InsertAt(head, i, y), elev, driver, o) == Total(head, elev, driver, o) + multiset{y}
  {
    assert head == head[..i] + head[i..];
    assert multiset(InsertAt(head, i, y)) == multiset(head) + multiset{y};
  }

  lemma InsertEpochs(head: seq<Request>, i: nat, y: Request)
    requires i <= |head| && !IsBarrier(y)
    ensures Epochs(InsertAt(head, i, y)) == Epochs(head)
  {
    EpochsInsert(head[..i], y, head[i..]);
    assert head == head[..i] + head[i..];
  }

  lemma InsertMembers(head: seq<Request>, i: nat, y: Request)
    requires i <= |head|
    ensures forall r :: r in InsertAt(head, i, y) <==> r in head || r == y
  {
    assert head == head[..i] + head[i..];
  }

  lemma ElevWithout(head: seq<Request>, elev: set<Request>, driver: set<Request>, o: Option<Request>, x: Request)
    requires x in elev
    ensures Total(head, elev - {x}, driver, o) == Total(head, elev, driver, o) - multiset{x}
    ensures x in Total(head, elev, driver, o)
  {
    assert multiset(elev) == multiset(elev - {x}) + multiset{x};
  }

  lemma DriverWithout(head: seq<Request>, elev: set<Request>, driver: set<Request>, o: Option<Request>, x: Request)
    requires x in driver
    ensures Total(head, elev, driver - {x}, o) == Total(head, elev, driver, o) - multiset{x}
    ensures x in Total(head, elev, driver, o)
  {
    assert multiset(driver) == multiset(driver - {x}) + multiset{x};
  }

  // ---------------------------------------------------------------------------
  // Dispatching, requeueing and merging
  // ---------------------------------------------------------------------------

  lemma DispatchAt(q: Queue, r: Request, i: nat)
    requires SeqInv(q) && r in q.elev && i <= |q.head|
    ensures SeqInv(Undock(q, r).(head := InsertAt(q.head, i, r)))
  {
    hide Consistent, Attributes, Reported, Held, Stages, Epochs, Total, InsertAt;
    var q' := Undock(q, r).(head := InsertAt(q.head, i, r));
    ElevWithout(q.head, q.elev, q.driver, q.origBar, r);
    InsertTotal(q.head, q.elev - {r}, q.driver, q.origBar, i, r);
    InsertEpochs(q.head, i, r);
    InsertMembers(q.head, i, r);
    MovedKeeps(q, q', r, r);
  }

  lemma DispatchKeeps(q: Queue, r: Request, boundary: int)
    requires SeqInv(q) && r in q.elev
    ensures SeqInv(DispatchSort(q, r, boundary))
    ensures SeqInv(DispatchTail(q, r))
  {
    hide SeqInv, Undock;
    DispatchAt(q, r, SortIndex(q.head, r, boundary, |q.head|));
    DispatchAt(q, r, |q.head|);
    assert InsertAt(q.head, |q.head|, r) == q.head + [r];
  }

  lemma RequeueKeeps(q: Queue, r: Request)
    requires SeqInv(q) && r in q.driver
    ensures SeqInv(Requeue(q, r))
    ensures var q' := Requeue(q, r); q'.ordseq == q.ordseq && q'.origBar == q.origBar && q'.results == q.results && q'.done == q.done
  {
    hide Consistent, Attributes, Reported, Held, Stages, Epochs, Total, InsertAt, RequeueIndex, ReqSeq;
    var q' := Requeue(q, r);
    var r1 := r.(started := false, soft := true);
    var q1 := Uncount(q.(driver := q.driver - {r}), r);
    var i := if q1.ordseq == {} then 0 else RequeueIndex(q1, ReqSeq(q1, r1), 0);
    DriverWithout(q.head, q.elev, q.driver, q.origBar, r);
    InsertTotal(q.head, q.elev, q.driver - {r}, q.origBar, i, r1);
    InsertEpochs(q.head, i, r1);
    InsertMembers(q.head, i, r1);
    MovedKeeps(q, q', r, r1);
  }

  lemma ElevSwapped(head: seq<Request>, elev: set<Request>, driver: set<Request>, o: Option<Request>, x: Request, y: Request)
    requires x in elev && x.who == y.who && Unique(Total(head, elev, driver, o))
    ensures Total(head, elev - {x} + {y}, driver, o) == Total(head, elev, driver, o) - multiset{x} + multiset{y}
    ensures x in Total(head, elev, driver, o)
  {
    ElevWithout(head, elev, driver, o, x);
    assert forall r | r in elev :: r in Total(head, elev, driver, o);
    assert y !in elev - {x};
    assert multiset(elev - {x} + {y}) == multiset(elev - {x}) + multiset{y};
  }

  lemma SwapKeeps(q: Queue, x: Request, y: Request, hash: set<Who>, lastMerge: Option<Who>)
    requires SeqInv(q) && x in q.elev && SameRequest(x, y)
    ensures SeqInv(q.(elev := q.elev - {x} + {y}, hash := hash, lastMerge := lastMerge))
  {
    hide Unique, Attributes, Reported, Held, Stages, Epochs, Total;
    var q' := q.(elev := q.elev - {x} + {y}, hash := hash, lastMerge := lastMerge);
    ElevSwapped(q.head, q.elev, q.driver, q.origBar, x, y);
    MovedKeeps(q, q', x, y);
  }

  // ---------------------------------------------------------------------------
  // Adding
  // ---------------------------------------------------------------------------

  lemma AttributesJoined(c: Census, y: Request)
    requires Attributes(c) && y.who.Client? && y.color == Odd(y.epoch)
    ensures Attributes(c + multiset{y})
  {
    assert forall r | r in c + multiset{y} :: r in c || r == y;
  }

  lemma ReportedSame(results: seq<(nat, int)>, added: seq<Added>, done: set<nat>, a: Added)
    requires Reported(results, added, done) && forall id: nat | id in done :: id < |added|
    ensures Reported(results, added + [a], done)
  {
  }

  /** q' is q with a new client request y. */
  ghost predicate Grown(q: Queue, q': Queue, y: Request) {
    && y.who == Client(|q.added|)
    && y.epoch == q.epoch
    && y.color == q.ordcolor
    && CensusOf(q') == CensusOf(q) + multiset{y}
    && BarrierQueue(q'.head, NextEpoch(q), q'.epoch)
    && q'.ordcolor == Odd(q'.epoch)
    && q' == q.(head := q'.head, elev := q'.elev, hash := q'.hash, lastMerge := q'.lastMerge,
                added := q.added + [Added(y.fs, y.hard, y.epoch)], epoch := q'.epoch, ordcolor := q'.ordcolor)
  }

  lemma GrownKeeps(q: Queue, q': Queue, y: Request)
    requires SeqInv(q) && Grown(q, q', y)
    requires Shapes(q'.head, q'.elev, q'.driver, q'.origBar)
    ensures SeqInv(q')
  {
    hide Unique, Recorded, Kept, Attributes, Reported, Held, Shapes, Stages, CensusOf, BarrierQueue;
    Joined(CensusOf(q), q.added, q.done, y);
    AttributesJoined(CensusOf(q), y);
    ReportedSame(q.results, q.added, q.done, Added(y.fs, y.hard, y.epoch));
    StagesSame(CensusOf(q), CensusOf(q'), q.ordseq, {});
  }

  lemma AddSortKeeps(q: Queue, write: bool, discard: bool, sector: int)
    requires SeqInv(q)
    ensures SeqInv(AddSort(q, write, discard, sector))
  {
    hide Unique, Attributes, Reported, Held, Stages, BarrierQueue;
    var r := NewRequest(q, true, false, false, write, discard, sector);
    var q' := AddSort(q, write, discard, sector);
    NotYetKnown(q, r);
    assert multiset(q.elev + {r}) == multiset(q.elev) + multiset{r};
    GrownKeeps(q, q', r);
  }

  lemma NotYetKnown(q: Queue, r: Request)
    requires SeqInv(q) && r.who == Client(|q.added|)
    ensures r !in q.elev
  {
    hide Unique, Attributes, Reported, Held, Stages, BarrierQueue;
    assert forall x | x in q.elev :: x in CensusOf(q);
    assert forall x | x in q.elev :: Recorded(x, q.added, q.done);
  }

  lemma AppendBarrier(head: seq<Request>, lo: nat, hi: nat, r: Request)
    requires BarrierQueue(head, lo, hi) && (IsBarrier(r) ==> r.epoch == hi)
    ensures BarrierQueue(head + [r], lo, if IsBarrier(r) then hi + 1 else hi)
  {
    EpochsConcat(head, [r]);
    EpochsOne(r);
    RangeMore(lo, hi);
  }

  lemma AddBackKeeps(q: Queue, fs: bool, hard: bool, empty: bool, write: bool, sector: int)
    requires SeqInv(q) && (hard ==> fs)
    ensures SeqInv(AddBack(q, fs, hard, empty, write, sector))
  {
    hide Consistent, Attributes, Reported, Held, Stages, BarrierQueue;
    var r := NewRequest(q, fs, hard, empty, write, false, sector).(soft := true);
    var q' := AddBack(q, fs, hard, empty, write, sector);
    AppendBarrier(q.head, NextEpoch(q), q.epoch, r);
    assert multiset(q.head + [r]) == multiset(q.head) + multiset{r};
    GrownKeeps(q, q', r);
  }

  lemma AddFrontKeeps(q: Queue, write: bool, sector: int)
    requires SeqInv(q)
    ensures SeqInv(AddFront(q, write, sector))
  {
    hide Consistent, Attributes, Reported, Held, Stages, Epochs;
    var r := NewRequest(q, false, false, false, write, false, sector).(soft := true);
    var q' := AddFront(q, write, sector);
    EpochsInsert([], r, q.head);
    assert [] + [r] + q.head == [r] + q.head;
    assert [] + q.head == q.head;
    assert multiset([r] + q.head) == multiset(q.head) + multiset{r};
    GrownKeeps(q, q', r);
  }

  // ---------------------------------------------------------------------------
  // A client's request leaves
  // ---------------------------------------------------------------------------

  lemma ReportedWith(results: seq<(nat, int)>, added: seq<Added>, done: set<nat>, x: Request)
    requires Reported(results, added, done) && Recorded(x, added, done) && !IsBarrier(x)
    ensures Reported(results, added, DoneAfter(done, x))
  {
  }

  /** q' is q without x, which is no barrier. */
  ghost predicate Shrunk(q: Queue, q': Queue, x: Request) {
    && x in CensusOf(q)
    && !IsBarrier(x)
    && CensusOf(q') == CensusOf(q) - multiset{x}
    && Epochs(q'.head) == Epochs(q.head)
    && q' == q.(head := q'.head, elev := q'.elev, driver := q'.driver, inFlight := q'.inFlight,
                hash := q'.hash, lastMerge := q'.lastMerge, done := DoneAfter(q.done, x))
  }

  /** A request other than a barrier leaves; the stage of a proxy becomes pending. */
  lemma ShrunkBase(q: Queue, q': Queue, x: Request)
    requires SeqInv(q) && Shrunk(q, q', x)
    requires Shapes(q'.head, q'.elev, q'.driver, q'.origBar)
    ensures Base(q')
    ensures forall w :: Held(CensusOf(q'), w) <==> Held(CensusOf(q), w) && w != x.who
  {
    hide Unique, Kept, Attributes, Reported, Held, Shapes, Stages, CensusOf, Epochs, Drained;
    Left(CensusOf(q), q.added, q.done, x);
    FewerAttributes(CensusOf(q), x);
    assert Recorded(x, q.added, q.done);
    ReportedWith(q.results, q.added, q.done, x);
  }

  lemma MergeRequestsKeeps(q: Queue, r: Request, next: Request)
    requires SeqInv(q) && r in q.elev && next in q.elev && r.who != next.who
    ensures SeqInv(MergeRequests(q, r, next))
  {
    hide Consistent, Attributes, Reported, Held, Stages, Epochs, Total, SeqInv;
    var q1 := q.(elev := q.elev - {next}, done := DoneAfter(q.done, next));
    ElevLeaves(q, next);
    var r1 := r.(bios := r.bios + next.bios);
    SwapKeeps(q1, r, r1, q.hash - {next.who} + {r.who}, Some(r.who));
    assert q.elev - {r, next} + {r1} == q.elev - {next} - {r} + {r1};
  }

  lemma ElevLeaves(q: Queue, x: Request)
    requires SeqInv(q) && x in q.elev
    ensures SeqInv(q.(elev := q.elev - {x}, done := DoneAfter(q.done, x)))
  {
    hide Consistent, Attributes, Reported, Held, Stages, Epochs, Total;
    var q' := q.(elev := q.elev - {x}, done := DoneAfter(q.done, x));
    ElevWithout(q.head, q.elev, q.driver, q.origBar, x);
    ShrunkBase(q, q', x);
    StagesSame(CensusOf(q), CensusOf(q'), q.ordseq, {});
  }

  // ---------------------------------------------------------------------------
  // Completion
  // ---------------------------------------------------------------------------

  lemma DrainPending(c: Census, ordseq: set<nat>)
    requires Stages(c, ordseq, {}) && CurSeq(ordseq) == DRAIN_SEQ
    ensures Stages(c, ordseq, {DRAIN_SEQ})
  {
    hide Held;
  }

  lemma DrainEnds(q: Queue)
    requires SeqInv(q) && q.ordseq != {} && CurSeq(q.ordseq) == DRAIN_SEQ
    ensures SeqInv(CompleteSeq(q, {DRAIN_SEQ}, 0).0)
  {
    hide Base, Stages, CensusOf, CompleteSeq;
    assert q.origBar.Some? by { SeqSound(q); }
    DrainPending(CensusOf(q), q.ordseq);
    CompleteSeqKeeps(q, {DRAIN_SEQ}, 0);
  }

  lemma SeqSound(q: Queue)
    requires SeqInv(q)
    ensures Sound(q)
  {
    hide Consistent, Shapes, Attributes, Reported, BarrierQueue, Stages, Drained;
  }

  lemma SameFlight(q: Queue, n: int)
    requires SeqInv(q)
    ensures SeqInv(q.(inFlight := n))
  {
    hide Consistent, Shapes, Attributes, Reported, BarrierQueue, Stages;
  }

  lemma CompletedKeeps(q: Queue, r: Request)
    requires SeqInv(q)
    ensures Sound(q) && SeqInv(Completed(q, r))
  {
    hide SeqInv, CompleteSeq, ReqSeq, CurSeq;
    SeqSound(q);
    var q1 := Uncount(q, r);
    SameFlight(q, q1.inFlight);
    if q1.ordseq != {} && CurSeq(q1.ordseq) == DRAIN_SEQ {
      DrainEnds(q1);
    }
  }

  lemma ClientEnds(q: Queue, r: Request)
    requires SeqInv(q) && r in q.driver && r.who.Client?
    ensures SeqInv(q.(driver := q.driver - {r}, done := q.done + {r.who.id}))
  {
    hide Consistent, Attributes, Reported, Held, Stages, Epochs, Total;
    var q' := q.(driver := q.driver - {r}, done := q.done + {r.who.id});
    DriverWithout(q.head, q.elev, q.driver, q.origBar, r);
    ShrunkBase(q, q', r);
    StagesSame(CensusOf(q), CensusOf(q'), q.ordseq, {});
  }

  lemma StageLeft(c: Census, c': Census, ordseq: set<nat>, who: Who)
    requires Stages(c, ordseq, {}) && !who.Client? && Held(c, who)
    requires forall w :: Held(c', w) <==> Held(c, w) && w != who
    ensures ordseq != {} && Stages(c', ordseq, {StageOf(who)})
  {
    hide Held;
  }

  /** A proxy leaves the driver; its stage is pending and was not completed before. */
  lemma ProxyEnds(q: Queue, r: Request)
    requires SeqInv(q) && r in q.driver && !r.who.Client?
    ensures var q' := q.(driver := q.driver - {r});
            && Base(q') && q.origBar.Some? && Stages(CensusOf(q'), q.ordseq, {StageOf(r.who)})
            && StageOf(r.who) !in q.ordseq && DRAIN_SEQ in q.ordseq
  {
    hide Consistent, Attributes, Reported, Stages, Epochs, Total;
    var q' := q.(driver := q.driver - {r});
    DriverWithout(q.head, q.elev, q.driver, q.origBar, r);
    ShrunkBase(q, q', r);
    assert Held(CensusOf(q), r.who);
    StageLeft(CensusOf(q), CensusOf(q'), q.ordseq, r.who);
    PendingIsNew(CensusOf(q'), q.ordseq, StageOf(r.who));
  }

  lemma PendingIsNew(c: Census, ordseq: set<nat>, s: nat)
    requires Stages(c, ordseq, {s}) && ordseq != {}
    ensures s !in ordseq
  {
  }

  lemma ProxyCompletes(q: Queue, r: Request, error: int)
    requires SeqInv(q) && r in q.driver && !r.who.Client?
    ensures Sound(q) && SeqInv(Complete(q, r, error))
    ensures Completed(q.(driver := q.driver - {r}), r) == Uncount(q.(driver := q.driver - {r}), r)
  {
    hide Consistent, Shapes, Attributes, Reported, BarrierQueue, Stages, CompleteSeq;
    ProxyEnds(q, r);
    var q1 := Uncount(q.(driver := q.driver - {r}), r);
    assert CensusOf(q1) == CensusOf(q.(driver := q.driver - {r}));
    assert Base(q1);
    CompleteSeqKeeps(q1, {StageOf(r.who)}, error);
  }

  lemma CompleteKeeps(q: Queue, r: Request, error: int)
    requires SeqInv(q) && r in q.driver
    ensures Sound(q) && SeqInv(Complete(q, r, error))
  {
    hide SeqInv, Completed, CompleteSeq;
    SeqSound(q);
    if r.who.Client? {
      ClientEnds(q, r);
      CompletedKeeps(q.(driver := q.driver - {r}, done := q.done + {r.who.id}), r);
    } else {
      ProxyCompletes(q, r, error);
    }
  }

  lemma BarErrorKeeps(q: Queue, error: int)
    requires SeqInv(q)
    ensures SeqInv(RecordError(q, error))
  {
    hide Consistent, Shapes, Attributes, Reported, BarrierQueue, Stages;
    RecordErrorKeeps(q, error);
  }

  // ---------------------------------------------------------------------------
  // Fetching
  // ---------------------------------------------------------------------------

  lemma FrontTotal(head: seq<Request>, elev: set<Request>, driver: set<Request>, o: Option<Request>)
    requires head != []
    ensures head[0] in Total(head, elev, driver, o)
    ensures Total(head[1..], elev, driver, o) == Total(head, elev, driver, o) - multiset{head[0]}
  {
    assert head == [head[0]] + head[1..];
    assert multiset(head) == multiset{head[0]} + multiset(head[1..]);
  }

  /** A barrier on a queue that supports none fails. */
  lemma RefusedKeeps(q: Queue)
    requires SeqInv(q) && q.ordseq == {} && q.head != [] && IsBarrier(q.head[0])
    ensures SeqInv(EndBarrier(q.(head := q.head[1..]), q.head[0], EOPNOTSUPP))
  {
    hide Unique, Kept, Held, Reported, BarrierQueue, Attributes, Total;
    var b := q.head[0];
    var q' := EndBarrier(q.(head := q.head[1..]), b, EOPNOTSUPP);
    FrontTotal(q.head, q.elev, q.driver, q.origBar);
    FrontBarrier(q.head, NextEpoch(q), q.epoch);
    assert Recorded(b, q.added, q.done);
    Left(CensusOf(q), q.added, q.done, b);
    ReportedMore(q.results, q.added, q.done, b, EOPNOTSUPP);
    FewerAttributes(CensusOf(q), b);
    assert forall r | r in q.head[1..] :: r in q.head;
  }

  /** During a sequence the next barrier on the dispatch queue has the other color. */
  lemma NextBarrierBlocked(q: Queue)
    requires SeqInv(q) && q.ordseq != {} && q.head != [] && IsBarrier(q.head[0])
    ensures ReqSeq(q, q.head[0]) > CurSeq(q.ordseq)
  {
    hide Consistent, Reported, Held, Total, BarrierQueue;
    FrontBarrier(q.head, NextEpoch(q), q.epoch);
    InProgress(q);
    FrontTotal(q.head, q.elev, q.driver, q.origBar);
    assert q.head[0] in q.head;
  }

  /** What blk_do_ordered lets pass is at the front of the dispatch queue and no barrier, and
      no proxy before the drain is over. */
  ghost predicate Passed(q: Queue, r: Option<Request>) {
    r.Some? ==>
      && q.head != []
      && q.head[0] == r.value
      && !IsBarrier(r.value)
      && (!r.value.who.Client? ==> DRAIN_SEQ in q.ordseq)
  }

  lemma StartOrderedPasses(q: Queue)
    requires q.head != [] && q.ordseq == {}
    ensures Passed(StartOrdered(q).0, StartOrdered(q).1)
  {
    var m := Opened(q).ordered;
    hide SequenceMode;
    var all := q.ordseq + {STARTED_SEQ} + SkippedStages(m, Waits(q));
    if !Waits(q) && Proxies(m, q.head[0]) != [] {
      assert m.preflush || m.bar || m.postflush;
      assert CurSeq(all) != DONE_SEQ;
      assert DRAIN_SEQ in all;
    }
  }

  lemma DrainPasses(q: Queue)
    requires SeqInv(q) && q.ordseq != {} && q.head != [] && !q.head[0].who.Client? && q.origBar.Some?
    requires q.ordered.byTag || ReqSeq(q, q.head[0]) <= CurSeq(q.ordseq)
    ensures DRAIN_SEQ in q.ordseq
  {
    hide Base, Stages;
  }

  lemma DoOrderedKeeps(q: Queue)
    requires SeqInv(q) && q.head != []
    ensures Sound(q) && SeqInv(DoOrdered(q).0)
    ensures Passed(DoOrdered(q).0, DoOrdered(q).1)
  {
    hide SeqInv, StartOrdered, EndBarrier, ReqSeq, CurSeq;
    SeqSound(q);
    FrontIsFs(q);
    if q.ordseq == {} {
      FrontIsClient(q);
      if q.head[0].fs && q.head[0].hard {
        if q.nextOrdered != NONE {
          StartOrderedKeeps(q);
          StartOrderedPasses(q);
        } else {
          RefusedKeeps(q);
        }
      }
    } else if IsBarrier(q.head[0]) {
      NextBarrierBlocked(q);
    } else if DoOrdered(q).1.Some? && !q.head[0].who.Client? {
      FrontProxy(q);
      DrainPasses(q);
    }
  }

  lemma FrontIsFs(q: Queue)
    requires SeqInv(q) && q.head != []
    ensures IsBarrier(q.head[0]) ==> q.head[0].fs
  {
    hide Consistent, Reported, Held, Total, BarrierQueue, Attributes, Stages;
    assert q.head[0] in q.head;
  }

  lemma FrontProxy(q: Queue)
    requires SeqInv(q) && q.head != [] && !q.head[0].who.Client?
    ensures q.head[0].fs <==> q.head[0].who == BarProxy
  {
    hide Consistent, Reported, Total, BarrierQueue, Shapes, Stages, Held;
    FrontTotal(q.head, q.elev, q.driver, q.origBar);
  }

  lemma FrontIsClient(q: Queue)
    requires SeqInv(q) && q.head != [] && q.ordseq == {}
    ensures q.head[0].who.Client?
  {
    hide Consistent, Reported, Total, BarrierQueue, Attributes, Shapes;
    FrontTotal(q.head, q.elev, q.driver, q.origBar);
    assert Held(CensusOf(q), q.head[0].who);
  }

  lemma {:induction false} NextRequestKeeps(q: Queue)
    requires SeqInv(q)
    ensures Sound(q) && SeqInv(NextRequest(q).0)
    ensures Passed(NextRequest(q).0, NextRequest(q).1)
    decreases |q.head|
  {
    hide SeqInv, DoOrdered;
    SeqSound(q);
    if q.head != [] {
      DoOrderedKeeps(q);
      DoOrderedProgress(q);
      if !DoOrdered(q).2 {
        NextRequestKeeps(DoOrdered(q).0);
      }
    }
  }

  lemma StartFrontTotal(head: seq<Request>, elev: set<Request>, driver: set<Request>, o: Option<Request>)
    requires head != []
    ensures Total([Start(head[0])] + head[1..], elev, driver, o)
         == Total(head, elev, driver, o) - multiset{head[0]} + multiset{Start(head[0])}
  {
    FrontTotal(head, elev, driver, o);
  }

  lemma FrontEpochs(head: seq<Request>)
    requires head != [] && !IsBarrier(head[0])
    ensures Epochs([Start(head[0])] + head[1..]) == Epochs(head) == Epochs(head[1..])
  {
    assert ([Start(head[0])] + head[1..])[1..] == head[1..];
  }

  lemma StartFrontKeeps(q: Queue)
    requires SeqInv(q) && q.head != [] && !IsBarrier(q.head[0])
    ensures SeqInv(q.(head := [Start(q.head[0])] + q.head[1..]))
  {
    hide Consistent, Reported, Total, Attributes, Stages, Epochs;
    var q' := q.(head := [Start(q.head[0])] + q.head[1..]);
    FrontTotal(q.head, q.elev, q.driver, q.origBar);
    StartFrontTotal(q.head, q.elev, q.driver, q.origBar);
    FrontEpochs(q.head);
    assert forall r | r in q'.head :: r == Start(q.head[0]) || r in q.head;
    MovedKeeps(q, q', q.head[0], Start(q.head[0]));
  }

  lemma PeekKeeps(q: Queue)
    requires SeqInv(q)
    ensures Sound(q) && SeqInv(Peek(q))
  {
    hide SeqInv, NextRequest;
    SeqSound(q);
    NextRequestKeeps(q);
    var q1 := NextRequest(q).0;
    if NextRequest(q).1.Some? {
      StartFrontKeeps(q1);
    }
  }

  lemma StartedNew(head: seq<Request>, elev: set<Request>, driver: set<Request>, o: Option<Request>)
    requires Unique(Total(head, elev, driver, o)) && head != []
    ensures Start(head[0]) !in driver
  {
    var c := Total(head, elev, driver, o);
    FrontTotal(head, elev, driver, o);
    assert c[head[0]] == multiset(head)[head[0]] + multiset(elev)[head[0]] + multiset(driver)[head[0]] + Single(o)[head[0]];
    assert forall r | r in driver :: r in c;
    assert head[0] in multiset(head);
    assert multiset(head)[head[0]] >= 1;
    assert head[0] !in driver;
  }

  lemma DequeueTotal(head: seq<Request>, elev: set<Request>, driver: set<Request>, o: Option<Request>, y: Request)
    requires head != [] && y !in driver
    ensures Total(head[1..], elev, driver + {y}, o) == Total(head, elev, driver, o) - multiset{head[0]} + multiset{y}
  {
    FrontTotal(head, elev, driver, o);
    assert multiset(driver + {y}) == multiset(driver) + multiset{y};
  }

  lemma DequeueKeeps(q: Queue)
    requires SeqInv(q) && q.head != [] && !IsBarrier(q.head[0])
    requires !q.head[0].who.Client? ==> DRAIN_SEQ in q.ordseq
    ensures SeqInv(Dequeue(q))
  {
    hide Unique, Reported, Total, Attributes, Stages, Epochs;
    var q' := Dequeue(q);
    StartedNew(q.head, q.elev, q.driver, q.origBar);
    FrontTotal(q.head, q.elev, q.driver, q.origBar);
    DequeueTotal(q.head, q.elev, q.driver, q.origBar, Start(q.head[0]));
    FrontEpochs(q.head);
    assert forall r | r in q'.head :: r in q.head;
    MovedKeeps(q, q', q.head[0], Start(q.head[0]));
  }

  lemma FetchKeeps(q: Queue)
    requires SeqInv(q)
    ensures Sound(q) && SeqInv(Fetch(q).0)
  {
    hide SeqInv, NextRequest, Dequeue;
    SeqSound(q);
    NextRequestKeeps(q);
    var q1 := NextRequest(q).0;
    if NextRequest(q).1.Some? {
      DequeueKeeps(q1);
    }
  }

  // ---------------------------------------------------------------------------
  // Merging into requests of the scheduler only
  // ---------------------------------------------------------------------------

  /** The merge hash and the one-hit cache name requests of the scheduler only. */
  ghost predicate MergeIndexed(elev: set<Request>, hash: set<Who>, lastMerge: Option<Who>) {
    && (forall w | w in hash :: Docked(elev, w))
    && (lastMerge.Some? ==> Docked(elev, lastMerge.value))
  }

  ghost predicate Docked(elev: set<Request>, w: Who) {
    exists r :: r in elev && r.who == w
  }

  ghost predicate Indexed(q: Queue) {
    MergeIndexed(q.elev, q.hash, q.lastMerge)
  }

  /** A candidate for a merge is held by the scheduler. */
  lemma CandidateDocked(q: Queue, r: Request)
    requires SeqInv(q) && Indexed(q) && MergeCandidate(q, r)
    ensures r in q.elev
  {
    hide Reported, Attributes, Stages, Epochs, Held, Recorded, Kept;
    assert Docked(q.elev, r.who);
    var x :| x in q.elev && x.who == r.who;
    assert x in CensusOf(q) && r in CensusOf(q);
  }

  lemma DockedSwap(elev: set<Request>, x: Request, y: Request, w: Who)
    requires x in elev && x.who == y.who && Docked(elev, w)
    ensures Docked(elev - {x} + {y}, w)
  {
    var r :| r in elev && r.who == w;
    var r' := if r == x then y else r;
    assert r' in elev - {x} + {y} && r'.who == w;
  }

  lemma DockedLess(elev: set<Request>, x: Request, w: Who)
    requires Docked(elev, w) && x.who != w
    ensures Docked(elev - {x}, w)
  {
    var r :| r in elev && r.who == w;
    assert r in elev - {x};
  }

  lemma IndexedMore(elev: set<Request>, hash: set<Who>, lastMerge: Option<Who>, y: Request)
    requires MergeIndexed(elev, hash, lastMerge)
    ensures MergeIndexed(elev + {y}, hash + {y.who}, if lastMerge.None? then Some(y.who) else lastMerge)
  {
    assert y in elev + {y};
    forall w | Docked(elev, w) ensures Docked(elev + {y}, w) {
      var r :| r in elev && r.who == w;
      assert r in elev + {y};
    }
  }

  lemma IndexedUndocked(elev: set<Request>, hash: set<Who>, lastMerge: Option<Who>, x: Request)
    requires MergeIndexed(elev, hash, lastMerge)
    ensures MergeIndexed(elev - {x}, hash - {x.who}, if lastMerge == Some(x.who) then None else lastMerge)
  {
    forall w | Docked(elev, w) && x.who != w ensures Docked(elev - {x}, w) {
      DockedLess(elev, x, w);
    }
  }

  lemma IndexedSwapped(elev: set<Request>, hash: set<Who>, lastMerge: Option<Who>, x: Request, y: Request)
    requires MergeIndexed(elev, hash, lastMerge) && x in elev && x.who == y.who
    ensures MergeIndexed(elev - {x} + {y}, hash + {x.who}, Some(x.who))
    ensures MergeIndexed(elev - {x} + {y}, hash, Some(x.who))
  {
    assert Docked(elev, x.who);
    forall w | Docked(elev, w) ensures Docked(elev - {x} + {y}, w) {
      DockedSwap(elev, x, y, w);
    }
  }

  lemma IndexedMerged(elev: set<Request>, hash: set<Who>, lastMerge: Option<Who>, r: Request, next: Request, r1: Request)
    requires MergeIndexed(elev, hash, lastMerge) && r in elev && r.who == r1.who != next.who
    ensures MergeIndexed(elev - {r, next} + {r1}, hash - {next.who} + {r.who}, Some(r.who))
  {
    IndexedUndocked(elev, hash, lastMerge, next);
    var l := if lastMerge == Some(next.who) then None else lastMerge;
    IndexedSwapped(elev - {next}, hash - {next.who}, l, r, r1);
    assert elev - {r, next} + {r1} == elev - {next} - {r} + {r1};
  }

  lemma MergeBioKeeps(q: Queue, r: Request, front: bool, sector: int)
    requires SeqInv(q) && Indexed(q) && MergeCandidate(q, r)
    ensures SeqInv(MergeBio(q, r, front, sector)) && Indexed(MergeBio(q, r, front, sector))
  {
    hide SeqInv, MergeIndexed;
    CandidateDocked(q, r);
    var r1 := if front then r.(bios := [q.epoch] + r.bios, sector := sector) else r.(bios := r.bios + [q.epoch]);
    SwapKeeps(q, r, r1, q.hash, Some(r.who));
    IndexedSwapped(q.elev, q.hash, q.lastMerge, r, r1);
  }
}
