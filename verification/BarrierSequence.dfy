/** The stages of a barrier sequence, in every mode: each stage is completed once, the
    barrier ends once, when all its stages are over, with the first error reported. */
module BarrierSequence {
  import opened Common
  import opened Barrier
  import opened BarrierPlacement

  const STAGES: set<nat> := {0, 1, 2, 3, 4}

  ghost function FirstError(errs: seq<int>): int {
    if errs == [] then 0 else if FirstError(errs[..|errs|-1]) != 0 then FirstError(errs[..|errs|-1]) else errs[|errs|-1]
  }

  predicate Odd(n: nat) {
    n % 2 == 1
  }

  ghost predicate IsBarrier(r: Request) {
    r.who.Client? && r.hard
  }

  /** Barriers wait on the dispatch queue, unstarted, or are the one in progress. */
  ghost predicate Shapes(head: seq<Request>, elev: set<Request>, driver: set<Request>, origBar: Option<Request>) {
    && (forall r | r in elev :: r.who.Client? && r.fs && !r.hard)
    && (forall r | r in driver :: r.started && !IsBarrier(r))
    && (forall r | r in head && IsBarrier(r) :: r.fs && !r.started)
    && (origBar.Some? ==> IsBarrier(origBar.value) && origBar.value.fs)
  }

  /** Colors are the parity of the epoch; proxies are what start_ordered makes them. */
  ghost predicate Attributes(c: Census) {
    && (forall r | r in c && r.who.Client? :: r.color == Odd(r.epoch))
    && (forall r | r in c && !r.who.Client? :: r.hard && (r.fs <==> r.who == BarProxy))
  }

  ghost predicate NoProxies(c: Census) {
    forall w: Who | !w.Client? :: !Held(c, w)
  }

  /** Which proxies are still around.  `pending` are stages that are over but whose bits
      blk_ordered_complete_seq has not set yet. */
  ghost predicate Stages(c: Census, ordseq: set<nat>, pending: set<nat>) {
    && (ordseq == {} ==> NoProxies(c))
    && (ordseq != {} ==>
          && STARTED_SEQ in ordseq
          && ordseq <= STAGES
          && pending <= STAGES
          && pending !! ordseq
          && CurSeq(ordseq) != DONE_SEQ
          && (forall w: Who | !w.Client? :: StageOf(w) in ordseq + pending <==> !Held(c, w)))
  }

  /** Barriers end in the order they were added, each once. */
  ghost predicate Reported(results: seq<(nat, int)>, added: seq<Added>, done: set<nat>) {
    && (forall i | 0 <= i < |results| ::
          var id := results[i].0; id in done && id < |added| && added[id] == Added(true, true, i))
    && (forall id: nat | id in done && id < |added| && added[id].hard ::
          added[id].epoch < |results| && results[added[id].epoch].0 == id)
  }

  /** The epochs of the barriers among some requests, in order. */
  ghost function Epochs(s: seq<Request>): seq<nat> {
    if s == [] then [] else (if IsBarrier(s[0]) then [s[0].epoch] else []) + Epochs(s[1..])
  }

  ghost function Range(lo: nat, hi: nat): seq<nat>
    decreases hi - lo
  {
    if lo >= hi then [] else [lo] + Range(lo + 1, hi)
  }

  /** The barriers on the dispatch queue are those of the epochs from lo to hi, in order. */
  ghost predicate BarrierQueue(head: seq<Request>, lo: nat, hi: nat) {
    lo <= hi && Epochs(head) == Range(lo, hi)
  }

  /** The epoch of the first barrier that has not started. */
  ghost function NextEpoch(q: Queue): nat {
    |q.results| + if q.origBar.Some? then 1 else 0
  }

  /** Everything but the stage bits. */
  ghost predicate Base(q: Queue) {
    && Placement(q)
    && Shapes(q.head, q.elev, q.driver, q.origBar)
    && Attributes(CensusOf(q))
    && Reported(q.results, q.added, q.done)
    && BarrierQueue(q.head, NextEpoch(q), q.epoch)
    && (q.origBar.Some? ==> q.origBar.value.epoch == |q.results|)
    && q.ordcolor == Odd(q.epoch)
    && Sound(q)
    && IsMode(q.nextOrdered)
    && q.orderr == FirstError(q.errs)
  }

  /** Ordering by tag skips the drain; otherwise proxies are issued only after it. */
  ghost predicate Drained(q: Queue, ordseq: set<nat>) {
    && (ordseq != {} && q.ordered.byTag ==> DRAIN_SEQ in ordseq)
    && (forall r | r in q.driver && !r.who.Client? :: DRAIN_SEQ in ordseq)
  }

  ghost predicate SeqInv(q: Queue) {
    Base(q) && Stages(CensusOf(q), q.ordseq, {}) && Drained(q, q.ordseq)
  }

  // ---------------------------------------------------------------------------
  // Barriers on the dispatch queue
  // ---------------------------------------------------------------------------

  lemma {:induction false} EpochsConcat(a: seq<Request>, b: seq<Request>)
    ensures Epochs(a + b) == Epochs(a) + Epochs(b)
  {
    if a == [] {
      assert a + b == b;
    } else {
      hide IsBarrier;
      EpochsConcat(a[1..], b);
      assert (a + b)[1..] == a[1..] + b;
      var f := if IsBarrier(a[0]) then [a[0].epoch] else [];
      assert Epochs(a + b) == f + (Epochs(a[1..]) + Epochs(b)) == (f + Epochs(a[1..])) + Epochs(b);
    }
  }

  lemma EpochsOne(r: Request)
    ensures Epochs([r]) == if IsBarrier(r) then [r.epoch] else []
  {
    assert [r][1..] == [];
  }

  lemma EpochsInsert(a: seq<Request>, r: Request, b: seq<Request>)
    requires !IsBarrier(r)
    ensures Epochs(a + [r] + b) == Epochs(a + b)
  {
    EpochsConcat(a, [r]);
    EpochsConcat(a + [r], b);
    EpochsConcat(a, b);
    EpochsOne(r);
  }

  lemma {:induction false} EpochsNone(a: seq<Request>)
    requires forall r | r in a :: !IsBarrier(r)
    ensures Epochs(a) == []
  {
    if a != [] {
      assert a[0] in a;
      EpochsNone(a[1..]);
    }
  }

  lemma {:induction false} RangeMore(lo: nat, hi: nat)
    requires lo <= hi
    ensures Range(lo, hi) + [hi] == Range(lo, hi + 1)
    decreases hi - lo
  {
    if lo < hi {
      RangeMore(lo + 1, hi);
      assert Range(lo, hi) + [hi] == [lo] + (Range(lo + 1, hi) + [hi]);
    } else {
      assert Range(hi, hi + 1) == [hi] + Range(hi + 1, hi + 1);
    }
  }

  lemma {:induction false} RangeHas(lo: nat, hi: nat, e: nat)
    ensures e in Range(lo, hi) <==> lo <= e < hi
    decreases hi - lo
  {
    if lo < hi {
      RangeHas(lo + 1, hi, e);
    }
  }

  lemma {:induction false} EpochsHas(s: seq<Request>, e: nat)
    ensures e in Epochs(s) <==> exists r :: r in s && IsBarrier(r) && r.epoch == e
  {
    if s != [] {
      EpochsHas(s[1..], e);
      assert s == [s[0]] + s[1..];
      if exists r :: r in s && IsBarrier(r) && r.epoch == e {
        var r :| r in s && IsBarrier(r) && r.epoch == e;
        assert r == s[0] || r in s[1..];
      }
    }
  }

  /** A barrier at the front of the dispatch queue is the next one. */
  lemma FrontBarrier(head: seq<Request>, lo: nat, hi: nat)
    requires BarrierQueue(head, lo, hi) && head != [] && IsBarrier(head[0])
    ensures head[0].epoch == lo < hi
    ensures BarrierQueue(head[1..], lo + 1, hi)
  {
    assert Epochs(head)[0] == head[0].epoch;
    assert Epochs(head)[1..] == Epochs(head[1..]);
    assert Range(lo, hi)[1..] == Range(lo + 1, hi);
  }

  /** Every barrier from lo to hi is there. */
  lemma BarrierThere(head: seq<Request>, lo: nat, hi: nat, e: nat)
    requires BarrierQueue(head, lo, hi)
    ensures lo <= e < hi <==> exists r :: r in head && IsBarrier(r) && r.epoch == e
  {
    RangeHas(lo, hi, e);
    EpochsHas(head, e);
  }

  // ---------------------------------------------------------------------------
  // blk_ordered_complete_seq
  // ---------------------------------------------------------------------------

  lemma AllStages(s: set<nat>)
    requires s <= STAGES
    ensures CurSeq(s) == DONE_SEQ <==> s == STAGES
  {
  }

  lemma ErrorRecorded(q: Queue, error: int)
    requires q.orderr == FirstError(q.errs)
    ensures RecordError(q, error).orderr == FirstError(RecordError(q, error).errs)
  {
    assert (q.errs + [error])[..|q.errs|] == q.errs;
  }

  lemma RecordErrorKeeps(q: Queue, error: int)
    requires Base(q)
    ensures Base(RecordError(q, error))
    ensures CensusOf(RecordError(q, error)) == CensusOf(q)
  {
    hide Consistent, Shapes, Attributes, Reported, BarrierQueue;
    ErrorRecorded(q, error);
  }

  /** The barrier of the current epoch ends. */
  lemma ReportedMore(results: seq<(nat, int)>, added: seq<Added>, done: set<nat>, b: Request, error: int)
    requires Reported(results, added, done) && Recorded(b, added, done)
    requires IsBarrier(b) && b.fs && b.epoch == |results|
    ensures Reported(results + [(b.who.id, error)], added, done + {b.who.id})
  {
  }

  lemma FewerAttributes(c: Census, b: Request)
    requires Attributes(c)
    ensures Attributes(c - multiset{b})
  {
    assert forall r | r in c - multiset{b} :: r in c;
  }

  lemma InProgress(q: Queue)
    requires Base(q) && q.origBar.Some?
    ensures q.origBar.value in CensusOf(q)
    ensures IsBarrier(q.origBar.value) && q.origBar.value.fs && Recorded(q.origBar.value, q.added, q.done)
  {
    assert q.origBar.value in CensusOf(q);
  }

  lemma NoneInDriver(q: Queue)
    requires NoProxies(CensusOf(q))
    ensures forall r | r in q.driver :: r.who.Client?
  {
    forall r | r in q.driver ensures r.who.Client? {
      assert r in CensusOf(q);
      assert Held(CensusOf(q), r.who);
    }
  }

  lemma FinishKeeps(q: Queue)
    requires Base(q) && q.origBar.Some?
    requires NoProxies(CensusOf(q))
    ensures SeqInv(EndBarrier(q.(ordseq := {}, origBar := None), q.origBar.value, q.orderr))
  {
    hide Consistent, BarrierQueue, Reported, Attributes, Held, Recorded;
    var b := q.origBar.value;
    var q' := EndBarrier(q.(ordseq := {}, origBar := None), b, q.orderr);
    InProgress(q);
    assert CensusOf(q') == CensusOf(q) - multiset{b};
    Left(CensusOf(q), q.added, q.done, b);
    ReportedMore(q.results, q.added, q.done, b, q.orderr);
    FewerAttributes(CensusOf(q), b);
    NoneInDriver(q');
  }

  /** Setting the bits of pending stages keeps the invariant; the barrier ends exactly when
      that completes the sequence, with the first error of the sequence. */
  lemma CompleteSeqKeeps(q: Queue, seqs: set<nat>, error: int)
    requires Base(q) && q.origBar.Some?
    requires Stages(CensusOf(q), q.ordseq, seqs)
    requires Drained(q, q.ordseq + seqs)
    ensures SeqInv(CompleteSeq(q, seqs, error).0)
    ensures CompleteSeq(q, seqs, error).1 <==> q.ordseq + seqs == STAGES
    ensures CompleteSeq(q, seqs, error).1 ==>
              CompleteSeq(q, seqs, error).0.results == q.results + [(q.origBar.value.who.id, FirstError(q.errs + [error]))]
  {
    hide Consistent, Shapes, Attributes, Reported, BarrierQueue, Held;
    var q1 := RecordError(q, error);
    RecordErrorKeeps(q, error);
    AllStages(q.ordseq + seqs);
    var q2 := q1.(ordseq := q1.ordseq + seqs);
    assert Base(q2);
    assert CensusOf(q2) == CensusOf(q);
    InProgress(q);
    if q.ordseq + seqs == STAGES {
      assert NoProxies(CensusOf(q2));
      FinishKeeps(q2);
    }
  }

  // ---------------------------------------------------------------------------
  // start_ordered
  // ---------------------------------------------------------------------------

  ghost function WithProxy(c: Census, on: bool, w: Who, b: Request): Census {
    if on then c + multiset{Proxy(w, b)} else c
  }

  lemma WithProxyKeeps(c: Census, added: seq<Added>, done: set<nat>, on: bool, w: Who, b: Request)
    requires Consistent(c, added, done) && Attributes(c) && !w.Client? && !Held(c, w)
    ensures Consistent(WithProxy(c, on, w, b), added, done)
    ensures Attributes(WithProxy(c, on, w, b))
    ensures forall v :: Held(WithProxy(c, on, w, b), v) <==> Held(c, v) || (on && v == w)
  {
    hide Consistent;
    if on {
      ProxyJoined(c, added, done, Proxy(w, b));
      assert forall r | r in c + multiset{Proxy(w, b)} :: r in c || r == Proxy(w, b);
    }
  }

  ghost function WithProxies(c: Census, m: Mode, b: Request): Census {
    WithProxy(WithProxy(WithProxy(c, m.preflush, PreFlush, b), m.bar, BarProxy, b), m.postflush, PostFlush, b)
  }

  lemma ProxiesJoin(c: Census, added: seq<Added>, done: set<nat>, m: Mode, b: Request)
    requires Consistent(c, added, done) && Attributes(c) && NoProxies(c)
    ensures Consistent(WithProxies(c, m, b), added, done)
    ensures Attributes(WithProxies(c, m, b))
    ensures Held(WithProxies(c, m, b), PreFlush) <==> m.preflush
    ensures Held(WithProxies(c, m, b), BarProxy) <==> m.bar
    ensures Held(WithProxies(c, m, b), PostFlush) <==> m.postflush
  {
    hide Consistent, Attributes, Held, WithProxy;
    var c1 := WithProxy(c, m.preflush, PreFlush, b);
    WithProxyKeeps(c, added, done, m.preflush, PreFlush, b);
    var c2 := WithProxy(c1, m.bar, BarProxy, b);
    WithProxyKeeps(c1, added, done, m.bar, BarProxy, b);
    WithProxyKeeps(c2, added, done, m.postflush, PostFlush, b);
  }

  lemma ProxiesCensus(c: Census, m: Mode, b: Request)
    ensures c + multiset(Proxies(m, b)) == WithProxies(c, m, b)
  {
    var p1 := if m.preflush then [Proxy(PreFlush, b)] else [];
    var p2 := if m.bar then [Proxy(BarProxy, b)] else [];
    var p3 := if m.postflush then [Proxy(PostFlush, b)] else [];
    assert multiset(Proxies(m, b)) == multiset(p1) + multiset(p2) + multiset(p3);
  }

  /** The state in which start_ordered completes the skipped stages. */
  ghost function Opened(q: Queue): Queue
    requires q.head != []
  {
    var b := q.head[0];
    var m := SequenceMode(q.nextOrdered, b.empty);
    q.(head := Proxies(m, b) + q.head[1..], ordered := m, orderr := 0, errs := [],
       ordseq := q.ordseq + {STARTED_SEQ}, origBar := Some(b))
  }

  lemma FrontReplaced(head: seq<Request>, elev: set<Request>, driver: set<Request>, front: seq<Request>)
    requires head != []
    ensures Total(front + head[1..], elev, driver, Some(head[0])) == Total(head, elev, driver, None) + multiset(front)
  {
    assert head == [head[0]] + head[1..];
    assert multiset(front + head[1..]) + multiset{head[0]} == multiset(head) + multiset(front);
  }

  lemma OpenedCensus(q: Queue)
    requires q.head != [] && q.origBar.None?
    ensures CensusOf(Opened(q)) == WithProxies(CensusOf(q), Opened(q).ordered, q.head[0])
  {
    hide WithProxies, Proxies, Total, SequenceMode;
    var b, m := q.head[0], Opened(q).ordered;
    ProxiesCensus(CensusOf(q), m, b);
    FrontReplaced(q.head, q.elev, q.driver, Proxies(m, b));
  }

  lemma OpenedBarriers(q: Queue)
    requires Base(q) && q.ordseq == {} && q.head != [] && IsBarrier(q.head[0])
    ensures BarrierQueue(Opened(q).head, NextEpoch(Opened(q)), q.epoch)
    ensures q.head[0].epoch == |q.results|
  {
    hide Consistent, Attributes, Reported, Shapes;
    var m := Opened(q).ordered;
    FrontBarrier(q.head, NextEpoch(q), q.epoch);
    EpochsNone(Proxies(m, q.head[0]));
    EpochsConcat(Proxies(m, q.head[0]), q.head[1..]);
  }

  lemma OpenedShapes(head: seq<Request>, elev: set<Request>, driver: set<Request>, m: Mode)
    requires Shapes(head, elev, driver, None) && head != [] && IsBarrier(head[0])
    ensures Shapes(Proxies(m, head[0]) + head[1..], elev, driver, Some(head[0]))
  {
    assert head[0] in head;
    assert forall r | r in head[1..] :: r in head;
    assert forall r | r in Proxies(m, head[0]) :: !r.who.Client?;
  }

  lemma OpenedKeeps(q: Queue)
    requires SeqInv(q) && q.ordseq == {} && q.head != [] && IsBarrier(q.head[0])
    ensures Base(Opened(q))
    ensures !Held(CensusOf(Opened(q)), PreFlush) <==> !Opened(q).ordered.preflush
    ensures !Held(CensusOf(Opened(q)), BarProxy) <==> !Opened(q).ordered.bar
    ensures !Held(CensusOf(Opened(q)), PostFlush) <==> !Opened(q).ordered.postflush
  {
    hide Consistent, Attributes, Reported, BarrierQueue, Held, WithProxies, Shapes;
    OpenedCensus(q);
    OpenedBarriers(q);
    OpenedShapes(q.head, q.elev, q.driver, Opened(q).ordered);
    ProxiesJoin(CensusOf(q), q.added, q.done, Opened(q).ordered, q.head[0]);
  }

  lemma SkippedArePending(c: Census, m: Mode, wait: bool)
    requires !Held(c, PreFlush) <==> !m.preflush
    requires !Held(c, BarProxy) <==> !m.bar
    requires !Held(c, PostFlush) <==> !m.postflush
    ensures Stages(c, {STARTED_SEQ}, SkippedStages(m, wait))
  {
    hide Held;
  }

  ghost predicate Waits(q: Queue)
    requires q.head != []
  {
    Opened(q).ordered.byDrain && q.inFlight != 0
  }

  lemma StartOrderedIs(q: Queue)
    requires q.head != []
    ensures StartOrdered(q).0 == CompleteSeq(Opened(q), SkippedStages(Opened(q).ordered, Waits(q)), 0).0
  {
    hide CompleteSeq, SkippedStages, Proxies, SequenceMode;
  }

  lemma StartOrderedKeeps(q: Queue)
    requires SeqInv(q) && q.ordseq == {} && q.head != [] && IsBarrier(q.head[0])
    requires q.nextOrdered != NONE
    ensures SeqInv(StartOrdered(q).0)
  {
    hide Consistent, Attributes, Reported, BarrierQueue, Held, Shapes, StartOrdered, CompleteSeq, CensusOf;
    var q1 := Opened(q);
    OpenedKeeps(q);
    StartOrderedIs(q);
    assert q1.ordseq == {STARTED_SEQ};
    SkippedArePending(CensusOf(q1), q1.ordered, Waits(q));
    NoneInDriver(q);
    CompleteSeqKeeps(q1, SkippedStages(q1.ordered, Waits(q)), 0);
  }
}
