/** The order of requests around a barrier in the drain modes. */
module BarrierOrder {
  import opened Common
  import opened Barrier
  import opened BarrierPlacement
  import opened BarrierSequence
  import opened BarrierSteps

  /** Requests that are not ordered by barriers. */
  ghost predicate Special(r: Request) {
    r.who.Client? && !r.fs
  }

  ghost predicate Plain(r: Request) {
    r.who.Client? && r.fs && !r.hard
  }

  /** Where a request belongs: the requests of an epoch, then its barrier, then its proxies. */
  ghost function Ord(r: Request): nat {
    8 * r.epoch + match r.who
                  case Client(_) => if r.hard then 1 else 0
                  case PreFlush => 2
                  case BarProxy => 3
                  case PostFlush => 4
  }

  ghost predicate Ordered(head: seq<Request>) {
    forall i, j | 0 <= i < j < |head| && !Special(head[i]) && !Special(head[j]) :: Ord(head[i]) <= Ord(head[j])
  }

  /** cur is the epoch of the barrier in progress, or of the next one; next is the epoch of the
      first barrier that has not started; last is the epoch of new requests. */
  ghost predicate InBounds(r: Request, cur: nat, next: nat, last: nat) {
    !Special(r) ==>
      && cur <= r.epoch <= last
      && (IsBarrier(r) ==> next <= r.epoch < last)
      && (!r.who.Client? ==> r.epoch == cur < next <= last)
      && (Plain(r) && !r.soft && !r.started ==> next <= r.epoch)
  }

  ghost predicate HeadOk(head: seq<Request>, cur: nat, next: nat, last: nat) {
    Ordered(head) && forall r | r in head :: InBounds(r, cur, next, last)
  }

  ghost predicate ElevOk(elev: set<Request>, last: nat) {
    forall r | r in elev :: Plain(r) && r.epoch == last && !r.soft && !r.started
  }

  ghost predicate DriverOk(driver: set<Request>, cur: nat) {
    forall r | r in driver && !Special(r) :: r.epoch == cur
  }

  ghost function FsOf(s: set<Request>): set<Request> {
    set r | r in s && r.fs
  }

  /** Once the drain is over no request of the barrier's epoch is left. */
  ghost predicate DrainDone(head: seq<Request>, driver: set<Request>, cur: nat, ordseq: set<nat>) {
    DRAIN_SEQ in ordseq ==>
      && (forall r | r in head && Plain(r) :: r.epoch > cur)
      && (forall r | r in driver :: !Plain(r))
  }

  /** A proxy is in the driver only when the stages before it are over. */
  ghost predicate StagesBefore(r: Request, ordseq: set<nat>) {
    !r.who.Client? ==> forall s: nat | s < StageOf(r.who) :: s in ordseq
  }

  ghost predicate Layout(q: Queue, ordseq: set<nat>) {
    && IsDrainMode(q.nextOrdered)
    && (q.ordseq != {} ==> !q.ordered.byTag)
    && HeadOk(q.head, |q.results|, NextEpoch(q), q.epoch)
    && ElevOk(q.elev, q.epoch)
    && DriverOk(q.driver, |q.results|)
    && q.inFlight == |FsOf(q.driver)|
    && DrainDone(q.head, q.driver, |q.results|, ordseq)
    && (forall r | r in q.driver :: StagesBefore(r, ordseq))
  }

  ghost predicate OrdInv(q: Queue) {
    SeqInv(q) && Layout(q, q.ordseq)
  }

  // ---------------------------------------------------------------------------
  // blk_ordered_complete_seq
  // ---------------------------------------------------------------------------

  lemma StagesMore(driver: set<Request>, ordseq: set<nat>, more: set<nat>)
    requires forall r | r in driver :: StagesBefore(r, ordseq)
    requires ordseq <= more
    ensures forall r | r in driver :: StagesBefore(r, more)
  {
  }

  lemma HeadAdvances(head: seq<Request>, cur: nat, last: nat)
    requires HeadOk(head, cur, cur + 1, last)
    requires forall r | r in head && Plain(r) :: r.epoch > cur
    requires forall r | r in head :: r.who.Client?
    ensures HeadOk(head, cur + 1, cur + 1, last)
  {
    hide Ordered;
  }

  lemma NoneLeft(q: Queue)
    requires NoProxies(CensusOf(q))
    ensures forall r | r in q.head :: r.who.Client?
    ensures forall r | r in q.driver :: r.who.Client?
  {
    forall r | r in q.head ensures r.who.Client? {
      assert r in CensusOf(q);
      assert Held(CensusOf(q), r.who);
    }
    NoneInDriver(q);
  }

  lemma StagesOver(c: Census, ordseq: set<nat>, pending: set<nat>)
    requires Stages(c, ordseq, pending) && ordseq + pending == STAGES && ordseq != {}
    ensures NoProxies(c)
  {
    hide Held;
  }

  lemma FinishLayout(q: Queue)
    requires q.origBar.Some? && q.origBar.value.who.Client? && Layout(q, STAGES) && Shapes(q.head, q.elev, q.driver, q.origBar)
    requires NoProxies(CensusOf(q))
    ensures Layout(EndBarrier(q.(ordseq := {}, origBar := None), q.origBar.value, q.orderr), {})
  {
    hide HeadOk, FsOf, NoProxies, IsDrainMode;
    NoneLeft(q);
    HeadAdvances(q.head, |q.results|, q.epoch);
  }

  lemma CompleteSeqLayout(q: Queue, seqs: set<nat>, error: int)
    requires Base(q) && q.origBar.Some?
    requires Stages(CensusOf(q), q.ordseq, seqs)
    requires Layout(q, q.ordseq + seqs)
    ensures Layout(CompleteSeq(q, seqs, error).0, CompleteSeq(q, seqs, error).0.ordseq)
  {
    hide Consistent, Attributes, Reported, BarrierQueue, Held, HeadOk, DriverOk, FsOf, DrainDone, StagesBefore, Shapes;
    AllStages(q.ordseq + seqs);
    InProgress(q);
    if q.ordseq + seqs == STAGES {
      StagesOver(CensusOf(q), q.ordseq, seqs);
      var q1 := RecordError(q, error);
      assert CensusOf(q1) == CensusOf(q);
      FinishLayout(q1.(ordseq := STAGES));
    }
  }

  // ---------------------------------------------------------------------------
  // start_ordered
  // ---------------------------------------------------------------------------

  /** Behind a barrier everything ordered belongs to a later epoch. */
  lemma BehindBarrier(head: seq<Request>, cur: nat, last: nat, r: Request)
    requires HeadOk(head, cur, cur, last) && head != [] && IsBarrier(head[0]) && head[0].fs && head[0].epoch == cur
    requires forall x | x in head[1..] && IsBarrier(x) :: cur + 1 <= x.epoch
    requires r in head[1..] && !Special(r)
    ensures r.who.Client? && cur + 1 <= r.epoch
  {
    var j :| 0 <= j < |head[1..]| && head[1..][j] == r;
    assert head[j + 1] == r && r in head;
    assert Ord(head[0]) <= Ord(head[j + 1]);
  }

  lemma OrderedFront(front: seq<Request>, tail: seq<Request>, bound: nat)
    requires Ordered(front) && Ordered(tail)
    requires forall r | r in front :: Ord(r) <= bound
    requires forall r | r in tail && !Special(r) :: bound <= Ord(r)
    ensures Ordered(front + tail)
  {
    var head := front + tail;
    forall i, j | 0 <= i < j < |head| && !Special(head[i]) && !Special(head[j])
      ensures Ord(head[i]) <= Ord(head[j])
    {
      hide Ord, Special;
      if i < |front| <= j {
        assert head[i] in front && head[j] in tail;
      } else if j < |front| {
        assert front[i] == head[i] && front[j] == head[j];
      } else {
        assert tail[i - |front|] == head[i] && tail[j - |front|] == head[j];
      }
    }
  }

  lemma ProxiesOrdered(m: Mode, b: Request)
    ensures Ordered(Proxies(m, b))
    ensures forall r | r in Proxies(m, b) ::
              !r.who.Client? && r.epoch == b.epoch && Ord(r) <= 8 * b.epoch + 4
  {
  }

  lemma TailOrdered(head: seq<Request>)
    requires Ordered(head) && head != []
    ensures Ordered(head[1..])
  {
    var tail := head[1..];
    forall i, j | 0 <= i < j < |tail| && !Special(tail[i]) && !Special(tail[j])
      ensures Ord(tail[i]) <= Ord(tail[j])
    {
      assert tail[i] == head[i + 1] && tail[j] == head[j + 1];
    }
  }

  lemma OpenedHead(head: seq<Request>, cur: nat, last: nat, m: Mode)
    requires HeadOk(head, cur, cur, last) && head != [] && IsBarrier(head[0]) && head[0].fs && head[0].epoch == cur
    requires forall x | x in head[1..] && IsBarrier(x) :: cur + 1 <= x.epoch
    ensures HeadOk(Proxies(m, head[0]) + head[1..], cur, cur + 1, last)
    ensures forall r | r in Proxies(m, head[0]) + head[1..] && Plain(r) :: r.epoch > cur
  {
    hide Ord, Ordered, Proxies;
    var front, tail := Proxies(m, head[0]), head[1..];
    assert head[0] in head;
    ProxiesOrdered(m, head[0]);
    TailOrdered(head);
    forall r | r in tail && !Special(r) ensures r.who.Client? && cur + 1 <= r.epoch && 8 * cur + 4 <= Ord(r) {
      BehindBarrier(head, cur, last, r);
      OrdAtLeast(r);
    }
    OrderedFront(front, tail, 8 * cur + 4);
    forall r | r in front + tail ensures InBounds(r, cur, cur + 1, last) {
      assert r in front || r in tail;
      if r in tail { assert r in head; }
    }
  }

  lemma OrdAtLeast(r: Request)
    ensures 8 * r.epoch <= Ord(r) <= 8 * r.epoch + 4
  {
  }

  lemma NoneInFlight(driver: set<Request>)
    requires |FsOf(driver)| == 0
    ensures forall r | r in driver :: !r.fs
  {
    assert forall r | r in driver && r.fs :: r in FsOf(driver);
  }

  lemma LaterBarriers(q: Queue)
    requires SeqInv(q) && q.ordseq == {} && q.head != [] && IsBarrier(q.head[0])
    ensures q.head[0].epoch == |q.results|
    ensures forall x | x in q.head[1..] && IsBarrier(x) :: |q.results| + 1 <= x.epoch
  {
    hide Consistent, Attributes, Reported, BarrierQueue, Held, Shapes, Stages;
    FrontBarrier(q.head, NextEpoch(q), q.epoch);
    forall x | x in q.head[1..] && IsBarrier(x) ensures |q.results| + 1 <= x.epoch {
      BarrierThere(q.head[1..], NextEpoch(q) + 1, q.epoch, x.epoch);
    }
  }

  lemma OpenedLayout(q: Queue)
    requires OrdInv(q) && q.ordseq == {} && q.head != [] && IsBarrier(q.head[0])
    ensures Layout(Opened(q), {STARTED_SEQ} + SkippedStages(Opened(q).ordered, Waits(q)))
    ensures IsDrainMode(q.nextOrdered)
  {
    hide Consistent, Attributes, Reported, BarrierQueue, Held, HeadOk, Proxies, FsOf;
    LaterBarriers(q);
    assert q.head[0] in q.head;
    OpenedHead(q.head, |q.results|, q.epoch, Opened(q).ordered);
    NoneInDriver(q);
    if !Waits(q) {
      NoneInFlight(q.driver);
    }
  }

  lemma StartOrderedOrd(q: Queue)
    requires OrdInv(q) && q.ordseq == {} && q.head != [] && IsBarrier(q.head[0])
    ensures OrdInv(StartOrdered(q).0)
  {
    hide Consistent, Attributes, Reported, BarrierQueue, Held, Shapes, StartOrdered, CompleteSeq, CensusOf, Layout;
    var q1 := Opened(q);
    OpenedLayout(q);
    StartOrderedKeeps(q);
    OpenedKeeps(q);
    StartOrderedIs(q);
    assert q1.ordseq == {STARTED_SEQ};
    SkippedArePending(CensusOf(q1), q1.ordered, Waits(q));
    CompleteSeqLayout(q1, SkippedStages(q1.ordered, Waits(q)), 0);
  }

  // ---------------------------------------------------------------------------
  // Fetching
  // ---------------------------------------------------------------------------

  /** No request of a later epoch gets to the front while the barrier of the current epoch waits
      or is in progress. */
  lemma FrontEpoch(q: Queue)
    requires OrdInv(q) && q.head != [] && Plain(q.head[0])
    ensures |q.results| <= q.head[0].epoch <= NextEpoch(q)
  {
    hide Consistent, Attributes, Reported, BarrierQueue, Held, Shapes, Stages;
    assert q.head[0] in q.head;
    if NextEpoch(q) < q.epoch {
      BarrierThere(q.head, NextEpoch(q), q.epoch, NextEpoch(q));
      var b :| b in q.head && IsBarrier(b) && b.epoch == NextEpoch(q);
      var j :| 0 <= j < |q.head| && q.head[j] == b;
      FsBarrier(q, b);
      assert Ord(q.head[0]) <= Ord(q.head[j]);
    }
  }

  lemma FsBarrier(q: Queue, b: Request)
    requires SeqInv(q) && b in q.head && IsBarrier(b)
    ensures b.fs
  {
    hide Consistent, Attributes, Reported, BarrierQueue, Held, Stages;
  }

  /** What may be handed to the driver. */
  ghost predicate Issuable(q: Queue, r: Request) {
    && (Plain(r) ==> r.epoch == |q.results|)
    && StagesBefore(r, q.ordseq)
  }

  lemma ColorTells(q: Queue, r: Request)
    requires SeqInv(q) && q.origBar.Some? && r in q.head && r.who.Client?
    ensures r.color == Odd(r.epoch)
    ensures q.origBar.value.color == Odd(|q.results|)
  {
    hide Consistent, Reported, BarrierQueue, Held, Stages, Odd;
    InProgress(q);
    assert r in CensusOf(q);
  }

  lemma OddAlternates(n: nat)
    ensures Odd(n) != Odd(n + 1)
  {
  }

  /** The color test of blk_ordered_req_seq is exact at the front of the dispatch queue. */
  lemma FrontSeq(q: Queue)
    requires OrdInv(q) && q.ordseq != {} && q.head != [] && Plain(q.head[0])
    ensures q.origBar.Some?
    ensures ReqSeq(q, q.head[0]) == if q.head[0].epoch == |q.results| then DRAIN_SEQ else DONE_SEQ
  {
    hide SeqInv, Layout;
    SeqSound(q);
    FrontEpoch(q);
    assert q.head[0] in q.head;
    ColorTells(q, q.head[0]);
    OddAlternates(|q.results|);
  }

  lemma NotDone(q: Queue)
    requires SeqInv(q) && q.ordseq != {}
    ensures CurSeq(q.ordseq) < DONE_SEQ && STARTED_SEQ in q.ordseq
  {
    hide Base, Held, CensusOf;
  }

  lemma StartOrderedIssues(q: Queue)
    requires q.head != [] && q.ordseq == {}
    ensures StartOrdered(q).1.Some? ==> Issuable(StartOrdered(q).0, StartOrdered(q).1.value)
  {
    hide SequenceMode;
    var m := Opened(q).ordered;
    var all := q.ordseq + {STARTED_SEQ} + SkippedStages(m, Waits(q));
    if !Waits(q) && Proxies(m, q.head[0]) != [] {
      assert m.preflush || m.bar || m.postflush;
      assert CurSeq(all) != DONE_SEQ;
      assert StagesBefore(Proxies(m, q.head[0])[0], all);
    }
  }

  lemma ModeDrains(q: Queue)
    requires OrdInv(q)
    ensures q.nextOrdered != NONE && (q.ordseq != {} ==> !q.ordered.byTag)
  {
    hide SeqInv, HeadOk, ElevOk, DriverOk, DrainDone, StagesBefore, FsOf;
  }

  lemma DoOrderedOrd(q: Queue)
    requires OrdInv(q) && q.head != []
    ensures Sound(q) && OrdInv(DoOrdered(q).0)
    ensures DoOrdered(q).1.Some? ==> Issuable(DoOrdered(q).0, DoOrdered(q).1.value)
  {
    hide SeqInv, Layout, StartOrdered, EndBarrier;
    SeqSound(q);
    ModeDrains(q);
    if q.ordseq == {} {
      FrontIsClient(q);
      if q.head[0].fs && q.head[0].hard {
        StartOrderedOrd(q);
        StartOrderedIssues(q);
      } else if Plain(q.head[0]) {
        FrontEpoch(q);
      }
    } else {
      NotDone(q);
      if Plain(q.head[0]) {
        FrontSeq(q);
      } else if !q.head[0].who.Client? {
        FrontProxy(q);
      }
    }
  }

  lemma {:induction false} NextRequestOrd(q: Queue)
    requires OrdInv(q)
    ensures Sound(q) && OrdInv(NextRequest(q).0)
    ensures NextRequest(q).1.Some? ==> Issuable(NextRequest(q).0, NextRequest(q).1.value)
    decreases |q.head|
  {
    hide OrdInv, DoOrdered, Issuable;
    OrdSeq(q);
    if q.head != [] {
      DoOrderedOrd(q);
      DoOrderedProgress(q);
      if !DoOrdered(q).2 {
        NextRequestOrd(DoOrdered(q).0);
      }
    }
  }

  lemma OrdSeq(q: Queue)
    requires OrdInv(q)
    ensures SeqInv(q) && Sound(q)
  {
    SeqSound(q);
  }

  lemma DequeueOrd(q: Queue)
    requires OrdInv(q) && q.head != [] && !IsBarrier(q.head[0]) && Issuable(q, q.head[0])
    ensures Layout(Dequeue(q), q.ordseq)
  {
    hide Consistent, Attributes, Reported, BarrierQueue, Held, Shapes, Stages, Ordered, IsDrainMode;
    var q', r := Dequeue(q), Start(q.head[0]);
    StartedIsNew(q);
    assert q.head[0] in q.head;
    TailOrdered(q.head);
    assert forall x | x in q'.head :: x in q.head;
    FsJoined(q.driver, r);
  }

  lemma StartedIsNew(q: Queue)
    requires SeqInv(q) && q.head != []
    ensures Start(q.head[0]) !in q.driver
  {
    hide Unique, Attributes, Reported, BarrierQueue, Held, Shapes, Stages, Total;
    StartedNew(q.head, q.elev, q.driver, q.origBar);
  }

  lemma FsJoined(driver: set<Request>, r: Request)
    requires r !in driver
    ensures |FsOf(driver + {r})| == |FsOf(driver)| + if r.fs then 1 else 0
  {
    assert FsOf(driver + {r}) == if r.fs then FsOf(driver) + {r} else FsOf(driver);
  }

  lemma FsLeft(driver: set<Request>, r: Request)
    requires r in driver
    ensures |FsOf(driver - {r})| == |FsOf(driver)| - if r.fs then 1 else 0
  {
    assert FsOf(driver - {r}) == if r.fs then FsOf(driver) - {r} else FsOf(driver);
  }

  lemma FetchOrd(q: Queue)
    requires OrdInv(q)
    ensures Sound(q) && OrdInv(Fetch(q).0)
  {
    hide SeqInv, Layout, NextRequest, Dequeue;
    OrdSeq(q);
    FetchKeeps(q);
    NextRequestKeeps(q);
    NextRequestOrd(q);
    var q1 := NextRequest(q).0;
    if NextRequest(q).1.Some? {
      DequeueOrd(q1);
      SameSeq(q1);
    }
  }

  lemma SameSeq(q: Queue)
    requires q.head != []
    ensures Dequeue(q).ordseq == q.ordseq
  {
  }

  lemma StartFrontLayout(q: Queue)
    requires OrdInv(q) && q.head != [] && !IsBarrier(q.head[0])
    ensures Layout(q.(head := [Start(q.head[0])] + q.head[1..]), q.ordseq)
  {
    hide Consistent, Attributes, Reported, BarrierQueue, Held, Shapes, Stages, Ordered, IsDrainMode;
    var q' := q.(head := [Start(q.head[0])] + q.head[1..]);
    assert q.head[0] in q.head;
    assert forall x | x in q'.head :: x in q.head || x == Start(q.head[0]);
    StartedOrdered(q.head);
  }

  lemma StartedOrdered(head: seq<Request>)
    requires Ordered(head) && head != []
    ensures Ordered([Start(head[0])] + head[1..])
  {
    var head' := [Start(head[0])] + head[1..];
    forall i, j | 0 <= i < j < |head'| && !Special(head'[i]) && !Special(head'[j])
      ensures Ord(head'[i]) <= Ord(head'[j])
    {
      assert Ord(head[i]) <= Ord(head[j]);
    }
  }

  lemma PeekOrd(q: Queue)
    requires OrdInv(q)
    ensures Sound(q) && OrdInv(Peek(q))
  {
    hide SeqInv, Layout, NextRequest;
    OrdSeq(q);
    PeekKeeps(q);
    NextRequestKeeps(q);
    NextRequestOrd(q);
    var q1 := NextRequest(q).0;
    if NextRequest(q).1.Some? {
      StartFrontLayout(q1);
    }
  }

  // ---------------------------------------------------------------------------
  // Completion
  // ---------------------------------------------------------------------------

  lemma DriverLeaves(q: Queue, r: Request, done: set<nat>)
    requires Layout(q, q.ordseq) && r in q.driver && r.started
    ensures Layout(Uncount(q.(driver := q.driver - {r}, done := done), r), q.ordseq)
  {
    hide HeadOk, IsDrainMode;
    FsLeft(q.driver, r);
  }

  /** When elv_completed_request ends the drain, no request of the epoch is left. */
  lemma DrainIsOver(q: Queue)
    requires q.ordseq != {} && q.inFlight == 0 && q.origBar.Some?
    requires q.head == [] || ReqSeq(q, q.head[0]) > DRAIN_SEQ
    requires OrdInv(q)
    ensures DrainDone(q.head, q.driver, |q.results|, q.ordseq + {DRAIN_SEQ})
  {
    hide SeqInv, FsOf;
    NoneInFlight(q.driver);
    forall r | r in q.head && Plain(r) ensures r.epoch > |q.results| {
      var j :| 0 <= j < |q.head| && q.head[j] == r;
      FrontIsLater(q);
      if j > 0 {
        assert Ord(q.head[0]) <= Ord(q.head[j]);
      }
    }
  }

  lemma FrontIsLater(q: Queue)
    requires q.ordseq != {} && q.origBar.Some?
    requires q.head != [] && ReqSeq(q, q.head[0]) > DRAIN_SEQ
    requires OrdInv(q)
    ensures !Special(q.head[0]) && (Plain(q.head[0]) ==> q.head[0].epoch > |q.results|) && Ord(q.head[0]) > 8 * |q.results|
  {
    hide SeqInv, Ordered;
    assert q.head[0] in q.head;
    if Plain(q.head[0]) {
      FrontSeq(q);
    }
  }

  lemma DrainEndsLayout(q: Queue)
    requires q.ordseq != {} && q.inFlight == 0 && CurSeq(q.ordseq) == DRAIN_SEQ && q.origBar.Some?
    requires q.head == [] || ReqSeq(q, q.head[0]) > DRAIN_SEQ
    requires OrdInv(q)
    ensures Layout(CompleteSeq(q, {DRAIN_SEQ}, 0).0, CompleteSeq(q, {DRAIN_SEQ}, 0).0.ordseq)
  {
    hide Consistent, Attributes, Reported, BarrierQueue, Held, Shapes, Stages, HeadOk, ElevOk, DriverOk, FsOf, CompleteSeq, ReqSeq, IsDrainMode;
    DrainIsOver(q);
    DrainPending(CensusOf(q), q.ordseq);
    StagesMore(q.driver, q.ordseq, q.ordseq + {DRAIN_SEQ});
    CompleteSeqLayout(q, {DRAIN_SEQ}, 0);
  }

  lemma ClientCompletes(q: Queue, r: Request, error: int)
    requires OrdInv(q) && r in q.driver && r.who.Client?
    ensures Sound(q) && Layout(Complete(q, r, error), Complete(q, r, error).ordseq)
  {
    hide SeqInv, Layout, CompleteSeq, ReqSeq, CurSeq;
    OrdSeq(q);
    DriverStarted(q, r);
    var q0 := q.(driver := q.driver - {r}, done := q.done + {r.who.id});
    ClientEnds(q, r);
    DriverLeaves(q, r, q0.done);
    var q1 := Uncount(q0, r);
    SameFlight(q0, q1.inFlight);
    SeqSound(q1);
    if q1.ordseq != {} && q1.inFlight == 0 && CurSeq(q1.ordseq) == DRAIN_SEQ
       && (q1.head == [] || ReqSeq(q1, q1.head[0]) > DRAIN_SEQ) {
      DrainEndsLayout(q1);
    }
  }

  lemma DriverStarted(q: Queue, r: Request)
    requires SeqInv(q) && r in q.driver
    ensures r.started && !IsBarrier(r)
  {
    hide Consistent, Attributes, Reported, BarrierQueue, Held, Stages;
  }

  lemma ProxyLeavesLayout(q: Queue, r: Request, stage: nat)
    requires Layout(q, q.ordseq) && r in q.driver && r.started && stage >= 2
    ensures var q1 := Uncount(q.(driver := q.driver - {r}), r); Layout(q1, q1.ordseq + {stage})
  {
    hide HeadOk, IsDrainMode, FsOf;
    DriverLeaves(q, r, q.done);
    StagesMore(q.driver - {r}, q.ordseq, q.ordseq + {stage});
    assert q.(driver := q.driver - {r}, done := q.done) == q.(driver := q.driver - {r});
  }

  lemma ProxyCompletesOrd(q: Queue, r: Request, error: int)
    requires OrdInv(q) && r in q.driver && !r.who.Client?
    ensures Sound(q) && Layout(Complete(q, r, error), Complete(q, r, error).ordseq)
  {
    hide Consistent, Attributes, Reported, BarrierQueue, Held, Shapes, Stages, Layout, CompleteSeq, Completed, Drained;
    OrdSeq(q);
    DriverStarted(q, r);
    ProxyEnds(q, r);
    ProxyCompletes(q, r, error);
    var q1 := Uncount(q.(driver := q.driver - {r}), r);
    assert CensusOf(q1) == CensusOf(q.(driver := q.driver - {r}));
    ProxyLeavesLayout(q, r, StageOf(r.who));
    CompleteSeqLayout(q1, {StageOf(r.who)}, error);
  }

  lemma CompleteOrd(q: Queue, r: Request, error: int)
    requires OrdInv(q) && r in q.driver
    ensures Sound(q) && OrdInv(Complete(q, r, error))
  {
    hide SeqInv, Layout, Complete;
    OrdSeq(q);
    CompleteKeeps(q, r, error);
    if r.who.Client? {
      ClientCompletes(q, r, error);
    } else {
      ProxyCompletesOrd(q, r, error);
    }
  }

  // ---------------------------------------------------------------------------
  // Requeueing
  // ---------------------------------------------------------------------------

  ghost predicate FitsAt(head: seq<Request>, i: nat, r: Request)
    requires i <= |head|
  {
    !Special(r) ==>
      && (forall j | 0 <= j < i && !Special(head[j]) :: Ord(head[j]) <= Ord(r))
      && (forall j | i <= j < |head| && !Special(head[j]) :: Ord(r) <= Ord(head[j]))
  }

  lemma OrderedInsert(head: seq<Request>, i: nat, r: Request)
    requires Ordered(head) && i <= |head| && FitsAt(head, i, r)
    ensures Ordered(InsertAt(head, i, r))
  {
    hide Ord, Special;
    var head' := InsertAt(head, i, r);
    forall a, b | 0 <= a < b < |head'| && !Special(head'[a]) && !Special(head'[b])
      ensures Ord(head'[a]) <= Ord(head'[b])
    {
      var a', b' := if a < i then a else a - 1, if b < i then b else b - 1;
      if a != i && b != i {
        assert head'[a] == head[a'] && head'[b] == head[b'];
      } else if a == i {
        assert head'[a] == r && head'[b] == head[b'];
      } else {
        assert head'[b] == r && head'[a] == head[a'];
      }
    }
  }

  lemma HeadInsert(head: seq<Request>, i: nat, r: Request, cur: nat, next: nat, last: nat)
    requires HeadOk(head, cur, next, last) && i <= |head| && FitsAt(head, i, r) && InBounds(r, cur, next, last)
    ensures HeadOk(InsertAt(head, i, r), cur, next, last)
  {
    hide Ordered, InBounds, FitsAt;
    OrderedInsert(head, i, r);
    InsertMembers(head, i, r);
  }

  /** The lowest place fits a request of the current epoch at the very front. */
  lemma FitsFirst(head: seq<Request>, r: Request, cur: nat, next: nat, last: nat)
    requires HeadOk(head, cur, next, last) && Plain(r) && r.epoch == cur
    ensures FitsAt(head, 0, r)
  {
    forall j | 0 <= j < |head| && !Special(head[j]) ensures Ord(r) <= Ord(head[j]) {
      assert head[j] in head;
    }
  }

  /** Among the requests before a stage, the clients' have the barrier's own color; none is
      left once the drain is over, and a later epoch hides behind a barrier of the other color. */
  lemma NoClientBefore(q: Queue, s: nat, i: nat, j: nat)
    requires q.origBar.Some? && DRAIN_SEQ in q.ordseq
    requires j < i <= |q.head| && s <= POSTFLUSH_SEQ
    requires forall k | 0 <= k < i :: ReqSeq(q, q.head[k]) < s
    requires !Special(q.head[j])
    requires OrdInv(q)
    ensures !q.head[j].who.Client?
  {
    hide Consistent, Attributes, Reported, BarrierQueue, Held, Stages, Odd;
    var r, c := q.head[j], |q.results|;
    assert r in q.head;
    if r.who.Client? {
      ColorTells(q, r);
      OddAlternates(c);
      assert r.epoch > c + 1;
      BarrierThere(q.head, NextEpoch(q), q.epoch, c + 1);
      var b :| b in q.head && IsBarrier(b) && b.epoch == c + 1;
      var k :| 0 <= k < |q.head| && q.head[k] == b;
      ColorTells(q, b);
      assert false;
    }
  }

  lemma ProxyFits(q: Queue, r: Request, i: nat)
    requires q.origBar.Some? && !r.who.Client? && r.epoch == |q.results| && DRAIN_SEQ in q.ordseq
    requires i <= |q.head|
    requires forall k | 0 <= k < i :: ReqSeq(q, q.head[k]) < StageOf(r.who)
    requires i < |q.head| ==> StageOf(r.who) <= ReqSeq(q, q.head[i])
    requires OrdInv(q)
    ensures FitsAt(q.head, i, r)
  {
    hide SeqInv;
    forall j | 0 <= j < i && !Special(q.head[j]) ensures Ord(q.head[j]) <= Ord(r) {
      NoClientBefore(q, StageOf(r.who), i, j);
      assert q.head[j] in q.head;
    }
    if i < |q.head| {
      NextFits(q, r, i);
      forall j | i <= j < |q.head| && !Special(q.head[j]) ensures Ord(r) <= Ord(q.head[j]) {
        assert j > i ==> Ord(q.head[i]) <= Ord(q.head[j]);
      }
    }
  }

  lemma NextFits(q: Queue, r: Request, i: nat)
    requires q.origBar.Some? && !r.who.Client? && r.epoch == |q.results|
    requires i < |q.head| && StageOf(r.who) <= ReqSeq(q, q.head[i])
    requires OrdInv(q)
    ensures !Special(q.head[i]) && Ord(r) <= Ord(q.head[i])
  {
    hide SeqInv, Ordered, Odd;
    assert q.head[i] in q.head;
    if q.head[i].who.Client? {
      ColorTells(q, q.head[i]);
    }
  }

  lemma DriverColor(q: Queue, r: Request)
    requires SeqInv(q) && q.origBar.Some? && r in q.driver && r.who.Client?
    ensures r.color == Odd(r.epoch)
    ensures q.origBar.value.color == Odd(|q.results|)
  {
    hide Consistent, Reported, BarrierQueue, Held, Stages, Odd;
    InProgress(q);
    assert r in CensusOf(q);
  }

  ghost function RequeuePlace(q: Queue, r: Request): (i: nat)
    requires Sound(q)
    ensures i <= |q.head|
  {
    if q.ordseq == {} then 0 else RequeueIndex(q, ReqSeq(q, r), 0)
  }

  lemma RequeueFits(q: Queue, r: Request)
    requires OrdInv(q) && r in q.driver && Sound(q)
    ensures FitsAt(q.head, RequeuePlace(q, r), r)
  {
    hide SeqInv, Odd, FitsAt, RequeueIndex;
    DriverStarted(q, r);
    if Special(r) {
      SpecialFits(q.head, RequeuePlace(q, r), r);
    } else if r.who.Client? {
      FitsFirst(q.head, r, |q.results|, NextEpoch(q), q.epoch);
      if q.ordseq != {} {
        DriverColor(q, r);
        assert q.head != [] ==> ReqSeq(q, q.head[0]) >= DRAIN_SEQ;
      }
    } else {
      assert DRAIN_SEQ in q.ordseq;
      ProxyFits(q, r, RequeueIndex(q, ReqSeq(q, r), 0));
    }
  }

  lemma SpecialFits(head: seq<Request>, i: nat, r: Request)
    requires Special(r) && i <= |head|
    ensures FitsAt(head, i, r)
  {
  }

  lemma SameReqSeq(q: Queue, q': Queue, r: Request, r': Request, s: nat, i: nat)
    requires q.origBar.Some? && q'.origBar == q.origBar && q'.head == q.head && i <= |q.head|
    requires r.who == r'.who && r.fs == r'.fs && r.color == r'.color
    ensures ReqSeq(q, r) == ReqSeq(q', r')
    ensures RequeueIndex(q, s, i) == RequeueIndex(q', s, i)
    decreases |q.head| - i
  {
    if i < |q.head| {
      SameReqSeq(q, q', r, r', s, i + 1);
    }
  }

  lemma RequeueIs(q: Queue, r: Request)
    requires Sound(q)
    ensures var r1 := r.(started := false, soft := true);
            Requeue(q, r) == Uncount(q.(driver := q.driver - {r}), r).(head := InsertAt(q.head, RequeuePlace(q, r), r1))
  {
    hide RequeueIndex, ReqSeq, InsertAt;
    if q.ordseq != {} {
      SameReqSeq(q, Uncount(q.(driver := q.driver - {r}), r), r, r.(started := false, soft := true), ReqSeq(q, r), 0);
    }
  }

  lemma FitsReflagged(head: seq<Request>, i: nat, r: Request)
    requires i <= |head| && FitsAt(head, i, r)
    ensures FitsAt(head, i, r.(started := false, soft := true))
  {
    assert Ord(r.(started := false, soft := true)) == Ord(r);
  }

  /** No request of the epoch comes back once the drain is over. */
  lemma DrainStaysDone(head: seq<Request>, driver: set<Request>, cur: nat, ordseq: set<nat>, i: nat, r: Request, r1: Request)
    requires DrainDone(head, driver, cur, ordseq) && r in driver && i <= |head| && (Plain(r1) ==> Plain(r))
    ensures DrainDone(InsertAt(head, i, r1), driver - {r}, cur, ordseq)
  {
    InsertMembers(head, i, r1);
  }

  lemma RequeuedInBounds(q: Queue, r: Request)
    requires OrdInv(q) && r in q.driver
    ensures InBounds(r.(started := false, soft := true), |q.results|, NextEpoch(q), q.epoch)
  {
    hide Consistent, Attributes, Reported, Held, Stages, Ordered, Epochs;
    if !r.who.Client? {
      StillOpen(q, r);
    }
  }

  lemma StillOpen(q: Queue, r: Request)
    requires SeqInv(q) && r in q.driver && !r.who.Client?
    ensures q.origBar.Some?
  {
    ProxyEnds(q, r);
  }

  lemma RequeueOrd(q: Queue, r: Request)
    requires OrdInv(q) && r in q.driver
    ensures Sound(q) && OrdInv(Requeue(q, r))
  {
    hide SeqInv, HeadOk, InBounds, Requeue, RequeuePlace, InsertAt, IsDrainMode, FsOf, Ord;
    OrdSeq(q);
    RequeueKeeps(q, r);
    RequeueIs(q, r);
    DriverStarted(q, r);
    var r1, i := r.(started := false, soft := true), RequeuePlace(q, r);
    RequeueFits(q, r);
    FitsReflagged(q.head, i, r);
    RequeuedInBounds(q, r);
    HeadInsert(q.head, i, r1, |q.results|, NextEpoch(q), q.epoch);
    DrainStaysDone(q.head, q.driver, |q.results|, q.ordseq, i, r, r1);
    FsLeft(q.driver, r);
  }
}
