/** The ordered-barrier protocol of the block layer as a state machine.

    A queue holds requests in the I/O scheduler (`elev`), on the dispatch queue (`head`) and
    in the driver (`driver`).  A barrier that reaches the front of the dispatch queue is
    replaced by up to three proxy requests, and `ordseq` records which stages of the sequence
    are over.  Schedulers and drivers are free: any request may be dispatched, completed or
    requeued at any time.

    Fields and parameters that the source does not have (`epoch`, `bios`, `added`, `done`,
    `results`, `errs`) are history: no decision of the model depends on them. */
module Barrier {
  import opened Common

  /** Identity of a request: a request of the block layer's clients, or one of the three
      proxy requests embedded in the queue. */
  datatype Who = Client(id: nat) | PreFlush | BarProxy | PostFlush

  datatype Request = Request(
    who: Who,
    fs: bool,        // blk_fs_request
    hard: bool,      // REQ_HARDBARRIER
    empty: bool,     // no sectors
    color: bool,     // REQ_ORDERED_COLOR
    soft: bool,      // REQ_SOFTBARRIER
    started: bool,   // REQ_STARTED
    write: bool,
    discard: bool,
    sector: int,
    epoch: nat,      // how many barriers were added before it
    bios: seq<nat>   // the epoch in which each of its bios arrived
  )

  /** The QUEUE_ORDERED_* flags. */
  datatype Mode = Mode(byDrain: bool, byTag: bool, preflush: bool, bar: bool, postflush: bool, fua: bool)

  const NONE := Mode(false, false, false, false, false, false)
  const DRAIN := Mode(true, false, false, true, false, false)
  const DRAIN_FLUSH := Mode(true, false, true, true, true, false)
  const DRAIN_FUA := Mode(true, false, true, true, false, true)
  const TAG := Mode(false, true, false, true, false, false)
  const TAG_FLUSH := Mode(false, true, true, true, true, false)
  const TAG_FUA := Mode(false, true, true, true, false, true)

  predicate IsDrainMode(m: Mode) {
    m in {DRAIN, DRAIN_FLUSH, DRAIN_FUA}
  }

  predicate IsMode(m: Mode) {
    IsDrainMode(m) || m in {NONE, TAG, TAG_FLUSH, TAG_FUA}
  }

  // QUEUE_ORDSEQ_*: bit numbers.
  const STARTED_SEQ := 0
  const DRAIN_SEQ := 1
  const PREFLUSH_SEQ := 2
  const BAR_SEQ := 3
  const POSTFLUSH_SEQ := 4
  const DONE_SEQ := 5

  const EOPNOTSUPP := -95

  /** A request as it was added, for the record. */
  datatype Added = Added(fs: bool, hard: bool, epoch: nat)

  datatype Queue = Queue(
    head: seq<Request>,          // queue_head
    elev: set<Request>,          // held by the I/O scheduler
    hash: set<Who>,              // on the merge hash
    lastMerge: Option<Who>,
    driver: set<Request>,        // dequeued and not ended
    inFlight: int,               // queue_in_flight
    ordcolor: bool,
    ordseq: set<nat>,            // the bits of q->ordseq
    ordered: Mode,
    nextOrdered: Mode,
    orderr: int,
    origBar: Option<Request>,    // orig_bar_rq while a sequence is in progress
    epoch: nat,                  // barriers added
    added: seq<Added>,           // every client request, by id
    done: set<nat>,              // client requests that ended or were merged away
    results: seq<(nat, int)>,    // ended barriers: id and error
    errs: seq<int>               // errors reported during the sequence in progress
  )

  function Init(m: Mode): Queue {
    Queue([], {}, {}, None, {}, 0, false, {}, m, m, 0, None, 0, [], {}, [], [])
  }

  // ---------------------------------------------------------------------------
  // blk-barrier.c
  // ---------------------------------------------------------------------------

  /** blk_ordered_cur_seq: the number of the lowest clear bit. */
  function CurSeq(ordseq: set<nat>): (s: nat)
    ensures s <= DONE_SEQ
    ensures s < DONE_SEQ ==> s !in ordseq
    ensures forall i: nat | i < s :: i in ordseq
  {
    if 0 !in ordseq then 0
    else if 1 !in ordseq then 1
    else if 2 !in ordseq then 2
    else if 3 !in ordseq then 3
    else if 4 !in ordseq then 4
    else 5
  }

  /** blk_ordered_req_seq */
  function ReqSeq(q: Queue, r: Request): (s: nat)
    requires q.origBar.Some?
    ensures DRAIN_SEQ <= s <= DONE_SEQ
  {
    match r.who
    case PreFlush => PREFLUSH_SEQ
    case BarProxy => BAR_SEQ
    case PostFlush => POSTFLUSH_SEQ
    case Client(_) =>
      if !r.fs || r.color == q.origBar.value.color then DRAIN_SEQ else DONE_SEQ
  }

  function RecordError(q: Queue, error: int): Queue {
    q.(orderr := if error != 0 && q.orderr == 0 then error else q.orderr, errs := q.errs + [error])
  }

  function EndBarrier(q: Queue, r: Request, error: int): Queue {
    if r.who.Client? then
      q.(done := q.done + {r.who.id}, results := q.results + [(r.who.id, error)])
    else q
  }

  /** blk_ordered_complete_seq; the caller checks that no stage completes twice. */
  function CompleteSeq(q: Queue, seqs: set<nat>, error: int): (Queue, bool)
    requires q.origBar.Some?
  {
    var q1 := RecordError(q, error);
    var q2 := q1.(ordseq := q1.ordseq + seqs);
    if CurSeq(q2.ordseq) != DONE_SEQ then (q2, false)
    else (EndBarrier(q2.(ordseq := {}, origBar := None), q.origBar.value, q2.orderr), true)
  }

  function Proxy(who: Who, b: Request): Request {
    Request(who, who == BarProxy, true, false, false, true, false, b.write, false, b.sector, b.epoch, [])
  }

  /** The mode of this sequence: an empty barrier has no BAR request and needs no POSTFLUSH,
      and cannot be ordered by tag when there is no command to issue. */
  function SequenceMode(m: Mode, empty: bool): Mode {
    if !empty then m
    else
      var m1 := m.(bar := false, postflush := false);
      if m1.byTag && !m1.preflush then m1.(byTag := false, byDrain := true) else m1
  }

  function Proxies(m: Mode, b: Request): seq<Request> {
    (if m.preflush then [Proxy(PreFlush, b)] else [])
    + (if m.bar then [Proxy(BarProxy, b)] else [])
    + (if m.postflush then [Proxy(PostFlush, b)] else [])
  }

  function SkippedStages(m: Mode, wait: bool): set<nat> {
    (if m.postflush then {} else {POSTFLUSH_SEQ})
    + (if m.bar then {} else {BAR_SEQ})
    + (if m.preflush then {} else {PREFLUSH_SEQ})
    + (if wait then {} else {DRAIN_SEQ})
  }

  /** start_ordered on the barrier at the front of the dispatch queue.  The results are the new
      state, the request for the driver if any, and whether the search for one is over. */
  function StartOrdered(q: Queue): (Queue, Option<Request>, bool)
    requires q.head != []
  {
    var b := q.head[0];
    var m := SequenceMode(q.nextOrdered, b.empty);
    var wait := m.byDrain && q.inFlight != 0;
    var proxies := Proxies(m, b);
    var q1 := q.(head := proxies + q.head[1..], ordered := m, orderr := 0, errs := [],
                 ordseq := q.ordseq + {STARTED_SEQ}, origBar := Some(b));
    var (q2, over) := CompleteSeq(q1, SkippedStages(m, wait), 0);
    (q2, if wait || proxies == [] then None else Some(proxies[0]), !over)
  }

  /** blk_do_ordered on the request at the front of the dispatch queue. */
  function DoOrdered(q: Queue): (Queue, Option<Request>, bool)
    requires q.head != []
    requires q.ordseq != {} ==> q.origBar.Some?
  {
    var r := q.head[0];
    var isBarrier := r.fs && r.hard;
    if q.ordseq == {} then
      if !isBarrier then (q, Some(r), true)
      else if q.nextOrdered != NONE then StartOrdered(q)
      else (EndBarrier(q.(head := q.head[1..]), r, EOPNOTSUPP), None, false)
    else if !r.fs && r.who != PreFlush && r.who != PostFlush then (q, Some(r), true)
    else if q.ordered.byTag then
      (q, if isBarrier && r.who != BarProxy then None else Some(r), true)
    else
      (q, if ReqSeq(q, r) > CurSeq(q.ordseq) then None else Some(r), true)
  }

  /** The stage-order warning of blk_do_ordered. */
  predicate WarnsOutOfOrder(q: Queue)
    requires q.ordseq != {} ==> q.origBar.Some?
  {
    && q.head != []
    && q.ordseq != {}
    && !q.ordered.byTag
    && (q.head[0].fs || q.head[0].who in {PreFlush, PostFlush})
    && ReqSeq(q, q.head[0]) < CurSeq(q.ordseq)
  }

  /** What every operation needs in order not to dereference a null orig_bar_rq. */
  predicate Sound(q: Queue) {
    q.ordseq != {} <==> q.origBar.Some?
  }

  // ---------------------------------------------------------------------------
  // blk.h and blk-core.c: fetching
  // ---------------------------------------------------------------------------

  lemma DoOrderedProgress(q: Queue)
    requires Sound(q) && q.head != []
    ensures Sound(DoOrdered(q).0)
    ensures !DoOrdered(q).2 ==> |DoOrdered(q).0.head| < |q.head|
  {
    if q.ordseq == {} && q.head[0].fs && q.head[0].hard && q.nextOrdered != NONE {
      StartOrderedProgress(q);
    }
  }

  lemma StartOrderedProgress(q: Queue)
    requires q.ordseq == {} && q.head != []
    ensures Sound(StartOrdered(q).0)
    ensures !StartOrdered(q).2 ==> |StartOrdered(q).0.head| < |q.head|
  {
    var b := q.head[0];
    var m := SequenceMode(q.nextOrdered, b.empty);
    var skip := SkippedStages(m, m.byDrain && q.inFlight != 0);
    var all := q.ordseq + {STARTED_SEQ} + skip;
    if CurSeq(all) == DONE_SEQ {
      assert 2 in all && 3 in all && 4 in all;
      assert Proxies(m, b) == [];
    } else {
      assert 0 in all;
    }
  }

  /** The inner loop of __elv_next_request: over the dispatch queue as it is. */
  function NextRequest(q: Queue): (Queue, Option<Request>)
    requires Sound(q)
    decreases |q.head|
  {
    if q.head == [] then (q, None)
    else
      DoOrderedProgress(q);
      var (q1, r, stop) := DoOrdered(q);
      if stop then (q1, r) else NextRequest(q1)
  }

  predicate Accounted(r: Request) {
    r.started && r.fs
  }

  function Start(r: Request): Request {
    r.(started := true)
  }

  /** blk_peek_request without blk_start_request: the request stays queued, marked started. */
  function Peek(q: Queue): Queue
    requires Sound(q)
  {
    var (q1, r) := NextRequest(q);
    if r.None? || q1.head == [] then q1
    else q1.(head := [Start(q1.head[0])] + q1.head[1..])
  }

  /** blk_dequeue_request of a started request from the front of the dispatch queue. */
  function Dequeue(q: Queue): Queue
    requires q.head != []
  {
    var r := Start(q.head[0]);
    q.(head := q.head[1..], driver := q.driver + {r}, inFlight := q.inFlight + if r.fs then 1 else 0)
  }

  /** blk_fetch_request: the new state and the request handed to the driver, if any. */
  function Fetch(q: Queue): (Queue, Option<Request>)
    requires Sound(q)
  {
    var (q1, r) := NextRequest(q);
    if r.None? || q1.head == [] then (q1, None) else (Dequeue(q1), Some(q1.head[0]))
  }

  // ---------------------------------------------------------------------------
  // elevator.c: completion and requeueing
  // ---------------------------------------------------------------------------

  function Uncount(q: Queue, r: Request): Queue {
    q.(inFlight := q.inFlight - if Accounted(r) then 1 else 0)
  }

  /** elv_completed_request */
  function Completed(q: Queue, r: Request): Queue
    requires Sound(q)
  {
    var q1 := Uncount(q, r);
    if q1.ordseq != {} && q1.inFlight == 0 && CurSeq(q1.ordseq) == DRAIN_SEQ
       && (q1.head == [] || ReqSeq(q1, q1.head[0]) > DRAIN_SEQ)
    then CompleteSeq(q1, {DRAIN_SEQ}, 0).0
    else q1
  }

  function StageOf(who: Who): nat
    requires !who.Client?
  {
    match who
    case PreFlush => PREFLUSH_SEQ
    case BarProxy => BAR_SEQ
    case PostFlush => POSTFLUSH_SEQ
  }

  /** The driver ends a request with an error code. */
  function Complete(q: Queue, r: Request, error: int): Queue
    requires Sound(q)
  {
    var q1 := q.(driver := q.driver - {r});
    match r.who
    case Client(id) => Completed(q1.(done := q1.done + {id}), r)
    case _ =>
      var q2 := Completed(q1, r);
      if q2.origBar.Some? then CompleteSeq(q2, {StageOf(r.who)}, error).0 else q2
  }

  /** The dispatch-queue position of a requeued request with sequence number s. */
  function RequeueIndex(q: Queue, s: nat, i: nat): (n: nat)
    requires q.origBar.Some? && i <= |q.head|
    ensures i <= n <= |q.head|
    ensures forall j | i <= j < n :: ReqSeq(q, q.head[j]) < s
    ensures n < |q.head| ==> s <= ReqSeq(q, q.head[n])
    decreases |q.head| - i
  {
    if i == |q.head| || s <= ReqSeq(q, q.head[i]) then i else RequeueIndex(q, s, i + 1)
  }

  function InsertAt(s: seq<Request>, i: nat, r: Request): seq<Request>
    requires i <= |s|
  {
    s[..i] + [r] + s[i..]
  }

  /** elv_requeue_request */
  function Requeue(q: Queue, r: Request): Queue
    requires Sound(q)
  {
    var q1 := Uncount(q.(driver := q.driver - {r}), r);
    var r1 := r.(started := false, soft := true);
    var i := if q1.ordseq == {} then 0 else RequeueIndex(q1, ReqSeq(q1, r1), 0);
    q1.(head := InsertAt(q1.head, i, r1))
  }

  // ---------------------------------------------------------------------------
  // elevator.c: adding, merging and dispatching
  // ---------------------------------------------------------------------------

  predicate Mergeable(r: Request) {
    !r.started && !r.hard && !r.soft && r.fs
  }

  /** A new client request as __elv_add_request stamps it. */
  function NewRequest(q: Queue, fs: bool, hard: bool, empty: bool, write: bool, discard: bool, sector: int): Request {
    Request(Client(|q.added|), fs, hard, empty, q.ordcolor, false, false, write, discard, sector, q.epoch, [q.epoch])
  }

  function Record(q: Queue, r: Request): Queue {
    q.(added := q.added + [Added(r.fs, r.hard, r.epoch)])
  }

  /** ELEVATOR_INSERT_SORT */
  function AddSort(q: Queue, write: bool, discard: bool, sector: int): Queue {
    var r := NewRequest(q, true, false, false, write, discard, sector);
    Record(q, r).(elev := q.elev + {r}, hash := q.hash + {r.who},
                  lastMerge := if q.lastMerge.None? then Some(r.who) else q.lastMerge)
  }

  /** ELEVATOR_INSERT_BACK, after elv_drain_elevator; barriers toggle the color. */
  function AddBack(q: Queue, fs: bool, hard: bool, empty: bool, write: bool, sector: int): Queue {
    var r := NewRequest(q, fs, hard, empty, write, false, sector).(soft := true);
    Record(q, r).(head := q.head + [r],
                  ordcolor := if hard then !q.ordcolor else q.ordcolor,
                  epoch := if hard then q.epoch + 1 else q.epoch)
  }

  /** ELEVATOR_INSERT_FRONT, which no fs request uses. */
  function AddFront(q: Queue, write: bool, sector: int): Queue {
    var r := NewRequest(q, false, false, false, write, false, sector).(soft := true);
    Record(q, r).(head := [r] + q.head)
  }

  /** A bio merged into a request of the scheduler, at its end or at its front. */
  function MergeBio(q: Queue, r: Request, front: bool, sector: int): Queue {
    var r1 := if front then r.(bios := [q.epoch] + r.bios, sector := sector) else r.(bios := r.bios + [q.epoch]);
    q.(elev := q.elev - {r} + {r1}, lastMerge := Some(r.who))
  }

  /** attempt_merge: the second request's bios move to the first. */
  function MergeRequests(q: Queue, r: Request, next: Request): Queue {
    var r1 := r.(bios := r.bios + next.bios);
    q.(elev := q.elev - {r, next} + {r1}, hash := q.hash - {next.who} + {r.who}, lastMerge := Some(r.who),
       done := if next.who.Client? then q.done + {next.who.id} else q.done)
  }

  /** Leaving the scheduler: off the merge hash and out of the one-hit cache. */
  function Undock(q: Queue, r: Request): Queue {
    q.(elev := q.elev - {r}, hash := q.hash - {r.who},
       lastMerge := if q.lastMerge == Some(r.who) then None else q.lastMerge)
  }

  /** The stop conditions of the backward scan of elv_dispatch_sort. */
  predicate SortStops(pos: Request, r: Request, boundary: int) {
    || r.discard != pos.discard
    || r.write != pos.write
    || pos.soft || pos.hard || pos.started
    || (r.sector < boundary && pos.sector >= boundary)
    || (!(r.sector >= boundary && pos.sector < boundary) && r.sector >= pos.sector)
  }

  function SortIndex(head: seq<Request>, r: Request, boundary: int, n: nat): (i: nat)
    requires n <= |head|
    ensures i <= n
    ensures forall j | i <= j < n :: !SortStops(head[j], r, boundary)
    ensures i > 0 ==> SortStops(head[i - 1], r, boundary)
  {
    if n == 0 || SortStops(head[n - 1], r, boundary) then n else SortIndex(head, r, boundary, n - 1)
  }

  /** elv_dispatch_sort */
  function DispatchSort(q: Queue, r: Request, boundary: int): Queue {
    Undock(q, r).(head := InsertAt(q.head, SortIndex(q.head, r, boundary, |q.head|), r))
  }

  /** elv_dispatch_add_tail */
  function DispatchTail(q: Queue, r: Request): Queue {
    Undock(q, r).(head := q.head + [r])
  }

  // ---------------------------------------------------------------------------
  // Runs
  // ---------------------------------------------------------------------------

  datatype Action =
    | DoAddSort(write: bool, discard: bool, sector: int)
    | DoAddBack(fs: bool, hard: bool, empty: bool, write: bool, sector: int)
    | DoAddFront(write: bool, sector: int)
    | DoMergeBio(r: Request, front: bool, sector: int)
    | DoMergeRequests(r: Request, next: Request)
    | DoDispatchSort(r: Request, boundary: int)
    | DoDispatchTail(r: Request)
    | DoPeek
    | DoFetch
    | DoComplete(r: Request, error: int)
    | DoBarError(error: int)
    | DoRequeue(r: Request)

  /** elv_merge finds its target in the one-hit cache, on the hash, or in the scheduler; the
      first two may name a request anywhere. */
  predicate MergeCandidate(q: Queue, r: Request) {
    && Mergeable(r)
    && (r in q.head || r in q.elev || r in q.driver)
    && (q.lastMerge == Some(r.who) || r.who in q.hash || r in q.elev)
  }

  /** What the environment may do.  A request is added at the back only once the scheduler has
      been drained; the bar proxy reports partial errors while the driver holds it. */
  predicate Enabled(q: Queue, a: Action) {
    match a
    case DoAddBack(fs, hard, _, _, _) => q.elev == {} && (hard ==> fs)
    case DoMergeBio(r, _, _) => MergeCandidate(q, r)
    case DoMergeRequests(r, next) => r in q.elev && next in q.elev && r.who != next.who
    case DoDispatchSort(r, _) => r in q.elev
    case DoDispatchTail(r) => r in q.elev
    case DoComplete(r, _) => r in q.driver
    case DoBarError(_) => exists r :: r in q.driver && r.who == BarProxy
    case DoRequeue(r) => r in q.driver
    case _ => true
  }

  function Apply(q: Queue, a: Action): Queue
    requires Sound(q)
  {
    match a
    case DoAddSort(write, discard, sector) => AddSort(q, write, discard, sector)
    case DoAddBack(fs, hard, empty, write, sector) => AddBack(q, fs, hard, empty, write, sector)
    case DoAddFront(write, sector) => AddFront(q, write, sector)
    case DoMergeBio(r, front, sector) => MergeBio(q, r, front, sector)
    case DoMergeRequests(r, next) => MergeRequests(q, r, next)
    case DoDispatchSort(r, boundary) => DispatchSort(q, r, boundary)
    case DoDispatchTail(r) => DispatchTail(q, r)
    case DoPeek => Peek(q)
    case DoFetch => Fetch(q).0
    case DoComplete(r, error) => Complete(q, r, error)
    case DoBarError(error) => RecordError(q, error)
    case DoRequeue(r) => Requeue(q, r)
  }
}
