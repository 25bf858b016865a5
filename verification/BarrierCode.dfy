/** The queue as the block layer updates it, in place, against the state machine. */
module BarrierCode {
  import opened Common
  import opened Barrier
  import opened BarrierPlacement
  import opened BarrierSequence
  import opened BarrierSteps

  lemma SkippedDrain(m: Mode)
    ensures SkippedStages(m, true) + {DRAIN_SEQ} == SkippedStages(m, false)
  {
  }

  lemma NotStarted(m: Mode, wait: bool)
    ensures STARTED_SEQ !in SkippedStages(m, wait)
  {
  }

  lemma StartOrderedParts(q: Queue)
    requires q.head != []
    ensures var q1 := Opened(q);
            var proxies := Proxies(q1.ordered, q.head[0]);
            var (q2, over) := CompleteSeq(q1, SkippedStages(q1.ordered, Waits(q)), 0);
            StartOrdered(q) == (q2, if Waits(q) || proxies == [] then None else Some(proxies[0]), !over)
  {
    hide CompleteSeq, SkippedStages, Proxies, SequenceMode;
  }

  class RequestQueue {
    var head: seq<Request>
    var elev: set<Request>
    var hash: set<Who>
    var lastMerge: Option<Who>
    var driver: set<Request>
    var inFlight: int
    var ordcolor: bool
    var ordseq: set<nat>
    var ordered: Mode
    var nextOrdered: Mode
    var orderr: int
    var origBar: Option<Request>
    var epoch: nat
    var added: seq<Added>
    var done: set<nat>
    var results: seq<(nat, int)>
    var errs: seq<int>

    function View(): Queue
      reads this
    {
      Queue(head, elev, hash, lastMerge, driver, inFlight, ordcolor, ordseq, ordered, nextOrdered, orderr, origBar,
            epoch, added, done, results, errs)
    }

    constructor (m: Mode)
      ensures View() == Init(m)
    {
      head, elev, hash, lastMerge, driver := [], {}, {}, None, {};
      inFlight, ordcolor, ordseq, ordered, nextOrdered := 0, false, {}, m, m;
      orderr, origBar, epoch, added, done, results, errs := 0, None, 0, [], {}, [], [];
    }

    method EndRequest(r: Request, error: int)
      modifies this
      ensures View() == EndBarrier(old(View()), r, error)
    {
      if r.who.Client? {
        done := done + {r.who.id};
        results := results + [(r.who.id, error)];
      }
    }

    /** blk_ordered_complete_seq; the precondition is its BUG_ON. */
    method CompleteSequence(seqs: set<nat>, error: int) returns (over: bool)
      requires origBar.Some?
      requires seqs !! ordseq
      modifies this
      ensures (View(), over) == CompleteSeq(old(View()), seqs, error)
    {
      if error != 0 && orderr == 0 {
        orderr := error;
      }
      errs := errs + [error];
      ordseq := ordseq + seqs;
      if CurSeq(ordseq) != DONE_SEQ {
        return false;
      }
      ordseq := {};
      var rq := origBar.value;
      origBar := None;
      EndRequest(rq, orderr);
      return true;
    }

    /** The mode of a new sequence. */
    static method ChooseMode(m: Mode, empty: bool) returns (mode: Mode)
      ensures mode == SequenceMode(m, empty)
    {
      mode := m;
      if empty {
        mode := mode.(bar := false, postflush := false);
        if mode.byTag && !mode.preflush {
          mode := mode.(byTag := false, byDrain := true);
        }
      }
    }

    /** The proxies are stacked at the head, last stage first. */
    method StackProxies(b: Request) returns (rq: Option<Request>, skip: set<nat>)
      modifies `head
      ensures head == Proxies(ordered, b) + old(head)
      ensures skip == SkippedStages(ordered, true)
      ensures rq == if Proxies(ordered, b) == [] then None else Some(Proxies(ordered, b)[0])
    {
      rq, skip := None, {};
      if ordered.postflush {
        rq := Some(Proxy(PostFlush, b));
        head := [rq.value] + head;
      } else {
        skip := skip + {POSTFLUSH_SEQ};
      }
      if ordered.bar {
        rq := Some(Proxy(BarProxy, b));
        head := [rq.value] + head;
      } else {
        skip := skip + {BAR_SEQ};
      }
      if ordered.preflush {
        rq := Some(Proxy(PreFlush, b));
        head := [rq.value] + head;
      } else {
        skip := skip + {PREFLUSH_SEQ};
      }
    }

    /** start_ordered takes the barrier off the queue and sets the mode of the sequence. */
    method SetAside() returns (b: Request)
      requires head != []
      modifies `ordered, `orderr, `errs, `ordseq, `head, `origBar
      ensures b == old(head[0]) && head == old(head[1..]) && origBar == Some(b)
      ensures ordered == SequenceMode(nextOrdered, b.empty)
      ensures orderr == 0 && errs == [] && ordseq == old(ordseq) + {STARTED_SEQ}
    {
      hide SequenceMode;
      b := head[0];
      var mode := ChooseMode(nextOrdered, b.empty);
      ordered, orderr, errs, ordseq, head, origBar := mode, 0, [], ordseq + {STARTED_SEQ}, head[1..], Some(b);
    }

    /** start_ordered up to the completion of skipped stages. */
    method OpenSequence() returns (rq: Option<Request>, skip: set<nat>)
      requires head != []
      modifies this
      ensures View() == Opened(old(View()))
      ensures skip == SkippedStages(ordered, Waits(old(View())))
      ensures var proxies := Proxies(ordered, old(head[0]));
              rq == if Waits(old(View())) || proxies == [] then None else Some(proxies[0])
    {
      hide Proxies, SequenceMode, SkippedStages;
      var b := SetAside();
      ghost var q := View();
      rq, skip := StackProxies(b);
      assert View() == q.(head := Proxies(ordered, b) + q.head);
      SkippedDrain(ordered);
      if ordered.byDrain && inFlight != 0 {
        rq := None;
      } else {
        skip := skip + {DRAIN_SEQ};
      }
    }

    /** start_ordered */
    method BeginSequence() returns (rq: Option<Request>, found: bool)
      requires head != [] && ordseq == {}
      modifies this
      ensures (View(), rq, found) == StartOrdered(old(View()))
    {
      hide Proxies, SequenceMode, CompleteSeq, SkippedStages, StartOrdered;
      StartOrderedParts(View());
      var skip;
      rq, skip := OpenSequence();
      NotStarted(ordered, Waits(old(View())));
      var over := CompleteSequence(skip, 0);
      found := !over;
    }

    /** blk_do_ordered on the request at the front. */
    method CheckOrder() returns (rq: Option<Request>, found: bool)
      requires head != [] && Sound(View())
      modifies this
      ensures (View(), rq, found) == DoOrdered(old(View()))
    {
      var r := head[0];
      rq := Some(r);
      var isBarrier := r.fs && r.hard;
      if ordseq == {} {
        if !isBarrier {
          return rq, true;
        }
        if nextOrdered != NONE {
          rq, found := BeginSequence();
          return;
        }
        head := head[1..];
        EndRequest(r, EOPNOTSUPP);
        return None, false;
      }
      if !r.fs && r.who != PreFlush && r.who != PostFlush {
        return rq, true;
      }
      if ordered.byTag {
        if isBarrier && r.who != BarProxy {
          rq := None;
        }
      } else if ReqSeq(View(), r) > CurSeq(ordseq) {
        rq := None;
      }
      return rq, true;
    }

    /** The inner loop of __elv_next_request. */
    method FindNext() returns (rq: Option<Request>)
      requires Sound(View())
      modifies this
      ensures (View(), rq) == NextRequest(old(View()))
    {
      while head != []
        invariant Sound(View())
        invariant NextRequest(View()) == NextRequest(old(View()))
        decreases |head|
      {
        DoOrderedProgress(View());
        var found: bool;
        rq, found := CheckOrder();
        if found {
          return;
        }
      }
      rq := None;
    }

    /** blk_fetch_request in a reachable state keeps the sequence invariant. */
    method FetchRequest() returns (rq: Option<Request>)
      requires SeqInv(View())
      modifies this
      ensures Sound(old(View())) && (View(), rq) == Fetch(old(View()))
      ensures SeqInv(View())
    {
      hide SeqInv, NextRequest;
      SeqSound(View());
      FetchKeeps(View());
      rq := FindNext();
      if rq.None? || head == [] {
        return None;
      }
      rq := Some(head[0]);
      var r := Start(head[0]);
      head := head[1..];
      driver := driver + {r};
      if r.fs {
        inFlight := inFlight + 1;
      }
    }

    /** elv_completed_request */
    method CompletedRequest(r: Request)
      requires Sound(View())
      modifies this
      ensures View() == Completed(old(View()), r)
    {
      if Accounted(r) {
        inFlight := inFlight - 1;
      }
      if ordseq != {} {
        if inFlight == 0 && CurSeq(ordseq) == DRAIN_SEQ && (head == [] || ReqSeq(View(), head[0]) > DRAIN_SEQ) {
          var _ := CompleteSequence({DRAIN_SEQ}, 0);
        }
      }
    }

    /** The driver ends a request; in a reachable state no stage is completed twice. */
    method EndByDriver(r: Request, error: int)
      requires SeqInv(View()) && r in driver
      modifies this
      ensures Sound(old(View())) && View() == Complete(old(View()), r, error)
      ensures SeqInv(View())
    {
      hide SeqInv, Completed, CompleteSeq;
      SeqSound(View());
      CompleteKeeps(View(), r, error);
      if r.who.Client? {
        driver := driver - {r};
        done := done + {r.who.id};
        CompletedRequest(r);
      } else {
        ProxyEnds(View(), r);
        ProxyCompletes(View(), r, error);
        driver := driver - {r};
        CompletedRequest(r);
        var _ := CompleteSequence({StageOf(r.who)}, error);
      }
    }

    /** Scan forward to the first request of the same or a later stage. */
    method RequeuePosition(s: nat) returns (pos: nat)
      requires origBar.Some?
      ensures pos == RequeueIndex(View(), s, 0)
    {
      pos := 0;
      while pos < |head| && s > ReqSeq(View(), head[pos])
        invariant pos <= |head|
        invariant RequeueIndex(View(), s, pos) == RequeueIndex(View(), s, 0)
      {
        pos := pos + 1;
      }
    }

    /** elv_requeue_request */
    method RequeueRequest(r: Request)
      requires Sound(View())
      modifies this
      ensures View() == Requeue(old(View()), r)
    {
      hide RequeueIndex, ReqSeq, InsertAt;
      driver := driver - {r};
      if Accounted(r) {
        inFlight := inFlight - 1;
      }
      var r1 := r.(started := false, soft := true);
      var pos := 0;
      if ordseq != {} {
        pos := RequeuePosition(ReqSeq(View(), r1));
      }
      head := InsertAt(head, pos, r1);
    }

    /** Scan backward for the place of r. */
    method SortPosition(r: Request, boundary: int) returns (entry: nat)
      ensures entry == SortIndex(head, r, boundary, |head|)
    {
      entry := |head|;
      while entry > 0 && !SortStops(head[entry - 1], r, boundary)
        invariant entry <= |head|
        invariant SortIndex(head, r, boundary, entry) == SortIndex(head, r, boundary, |head|)
      {
        entry := entry - 1;
      }
    }

    /** elv_dispatch_sort */
    method SortIntoQueue(r: Request, boundary: int)
      modifies this
      ensures View() == DispatchSort(old(View()), r, boundary)
    {
      hide SortIndex, InsertAt;
      if lastMerge == Some(r.who) {
        lastMerge := None;
      }
      hash := hash - {r.who};
      elev := elev - {r};
      var entry := SortPosition(r, boundary);
      head := InsertAt(head, entry, r);
    }
  }
}
