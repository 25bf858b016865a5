/** How long the deadline scheduler can keep a request waiting. */
module DeadlineRuns {
  import opened Common
  import opened RequestTree
  import opened Deadline

  datatype Action =
    | Add(rq: Rq)
    | Front(rq: Rq, sector: int)
    | Merge(rq: Rq, next: Rq)
    | Tick(ticks: nat)
    | Call

  predicate Enabled(d: Data, a: Action) {
    match a
    case Add(rq) => forall r | r in LaneOf(d, rq.write).fifo :: r.id != rq.id
    case Front(rq, _) => rq in LaneOf(d, rq.write).sort
    case Merge(rq, next) => rq in LaneOf(d, rq.write).sort && next in LaneOf(d, rq.write).sort && rq != next
    case _ => true
  }

  function Apply(c: Config, d: Data, a: Action): Data {
    match a
    case Add(rq) => AddRequest(c, d, rq)
    case Front(rq, sector) => FrontMerged(d, rq, sector)
    case Merge(rq, next) => MergedRequests(d, rq, next)
    case Tick(ticks) => d.(now := d.now + ticks)
    case Call => DispatchOne(c, d).0
  }

  function Init(): Data {
    Data(Lane([], [], None), Lane([], [], None), 0, 0, 0, [])
  }

  ghost predicate IsRun(c: Config, ds: seq<Data>, acts: seq<Action>) {
    && |ds| == |acts| + 1
    && ds[0] == Init()
    && forall i | 0 <= i < |acts| :: Enabled(ds[i], acts[i]) && ds[i + 1] == Apply(c, ds[i], acts[i])
  }

  lemma TickKeeps(c: Config, d: Data, ticks: nat)
    requires Inv(c, d)
    ensures Inv(c, d.(now := d.now + ticks))
  {
    hide Ascending, UniqueIds, ByExpiry;
  }

  lemma StepKeeps(c: Config, d: Data, a: Action)
    requires Inv(c, d) && Enabled(d, a)
    ensures Inv(c, Apply(c, d, a))
  {
    hide Inv, AddRequest, FrontMerged, MergedRequests, DispatchOne;
    match a
    case Add(rq) => AddKeeps(c, d, rq);
    case Front(rq, sector) => FrontMergedKeeps(c, d, rq, sector);
    case Merge(rq, next) => MergedKeeps(c, d, rq, next);
    case Tick(ticks) => TickKeeps(c, d, ticks);
    case Call => DispatchKeeps(c, d);
  }

  /** In every state of every run the two lists of each direction hold the same requests, at
      most one next_rq is set, and starved is bounded. */
  lemma {:induction false} RunKeeps(c: Config, ds: seq<Data>, acts: seq<Action>, i: nat)
    requires IsRun(c, ds, acts) && i <= |acts|
    ensures Inv(c, ds[i])
  {
    hide Inv, Apply, Enabled;
    if i == 0 {
      InitKeeps(c);
    } else {
      RunKeeps(c, ds, acts, i - 1);
      StepKeeps(c, ds[i - 1], acts[i - 1]);
    }
  }

  lemma InitKeeps(c: Config)
    ensures Inv(c, Init())
  {
  }

  // ---------------------------------------------------------------------------
  // No direction is starved
  // ---------------------------------------------------------------------------

  function Batch(c: Config): nat {
    if c.fifoBatch > 1 then c.fifoBatch else 1
  }

  function Fifo(d: Data, write: bool): seq<Rq> {
    LaneOf(d, write).fifo
  }

  /** How many batches go by, at most, until one of this direction ends. */
  function Turns(c: Config, write: bool): nat {
    if write then c.writesStarved + 1 else 2
  }

  /** How many calls may still pass before a request of this direction is chosen. */
  ghost function Patience(c: Config, d: Data, write: bool): nat
    requires d.starved <= c.writesStarved
  {
    (if d.batching < Batch(c) then Batch(c) - d.batching else 0)
    + (if write then (c.writesStarved - d.starved) * Batch(c) else if d.starved == c.writesStarved then Batch(c) else 0)
  }

  /** The request that a call dispatches. */
  ghost function Sent(c: Config, d: Data): Option<Rq> {
    var d' := DispatchOne(c, d).0;
    if |d'.dispatch| > |d.dispatch| then Some(d'.dispatch[|d.dispatch|]) else None
  }

  ghost predicate Chooses(c: Config, d: Data, write: bool) {
    Sent(c, d).Some? && Sent(c, d).value.write == write
  }

  lemma InvStarved(c: Config, d: Data)
    requires Inv(c, d)
    ensures d.starved <= c.writesStarved
  {
  }

  lemma MoveSame(d: Data, rq: Rq)
    ensures var d' := MoveRequest(d, rq);
            d'.batching == d.batching && d'.starved == d.starved && d'.now == d.now && d'.dispatch == d.dispatch + [rq]
  {
  }

  lemma StartSame(c: Config, d: Data, write: bool)
    requires Inv(c, d) && LaneOf(d, write).fifo != []
    ensures var d' := StartBatch(d, write).0;
            && d'.batching == 1 && d'.starved == d.starved && d'.now == d.now
            && |d'.dispatch| == |d.dispatch| + 1 && d'.dispatch[|d.dispatch|].write == write
  {
    hide LaneOk, MoveRequest, FindRequest;
    LaneInv(c, d, write);
    FindsPending(LaneOf(d, write), write, Latest(c, d, write), d.now);
    MoveSame(d.(batching := 1), FindRequest(LaneOf(d, write), d.now).value);
  }

  lemma Times(a: nat, b: nat)
    requires a > 0
    ensures a * b == (a - 1) * b + b
  {
  }

  /** A batch is running: there is a next request, and the batch is not full. */
  ghost predicate InBatch(c: Config, d: Data) {
    (d.write.next.Some? || d.read.next.Some?) && d.batching < c.fifoBatch
  }

  /** What a call does to the batch and the starvation count, and which direction it serves. */
  lemma CallCases(c: Config, d: Data)
    requires Inv(c, d)
    ensures var d' := DispatchOne(c, d).0;
            && d.starved <= c.writesStarved && Inv(c, d') && d'.starved <= c.writesStarved && d'.now == d.now
            && if InBatch(c, d) then d'.batching == d.batching + 1 && d'.starved == d.starved && Sent(c, d).Some?
               else if d.read.fifo != [] && (d.write.fifo == [] || d.starved < c.writesStarved) then
                 && d'.batching == 1 && Chooses(c, d, false) && d' == StartBatch(d.(starved := d'.starved), false).0
                 && d'.starved == d.starved + if d.write.fifo != [] then 1 else 0
               else if d.write.fifo != [] then
                 d'.batching == 1 && d'.starved == 0 && Chooses(c, d, true) && d' == StartBatch(d.(starved := 0), true).0
               else d' == d
  {
    hide LaneOk, MoveRequest, StartBatch;
    DispatchKeeps(c, d);
    NextPending(c, d);
    var rq := if d.write.next.Some? then d.write.next else d.read.next;
    if InBatch(c, d) {
      MoveSame(d.(batching := d.batching + 1), rq.value);
    } else if d.read.fifo != [] && d.write.fifo != [] && d.starved < c.writesStarved {
      StartSame(c, d.(starved := d.starved + 1), false);
    } else if d.read.fifo != [] && d.write.fifo == [] {
      StartSame(c, d, false);
    } else if d.write.fifo != [] {
      StartSame(c, d.(starved := 0), true);
    }
  }

  /** A call that does not choose the direction leaves less patience. */
  lemma CallCosts(c: Config, d: Data, write: bool)
    requires Inv(c, d) && Fifo(d, write) != [] && !Chooses(c, d, write) && (write || c.writesStarved > 0)
    ensures d.starved <= c.writesStarved && DispatchOne(c, d).0.starved <= c.writesStarved
    ensures Patience(c, DispatchOne(c, d).0, write) < Patience(c, d, write)
  {
    hide Inv, DispatchOne, StartBatch;
    CallCases(c, d);
    if write && d.starved < c.writesStarved {
      Times(c.writesStarved - d.starved, Batch(c));
    }
  }

  lemma AddSame(c: Config, d: Data, rq: Rq)
    ensures AddSorted(d, rq).batching == d.batching && AddSorted(d, rq).starved == d.starved && AddSorted(d, rq).now == d.now
  {
  }

  /** Only calls change the batch and the starvation count. */
  lemma IdleSame(c: Config, d: Data, a: Action)
    requires !a.Call?
    ensures Apply(c, d, a).batching == d.batching && Apply(c, d, a).starved == d.starved && d.now <= Apply(c, d, a).now
  {
    hide AddSorted, MergedLane;
    match a
    case Add(rq) => AddSame(c, d, Timed(c, d, rq));
    case Front(rq, sector) => AddSame(c, Unsorted(d, rq, sector), rq.(sector := sector));
    case _ =>
  }

  ghost function Calls(acts: seq<Action>, i: nat, j: nat): nat
    requires i <= j <= |acts|
  {
    if i == j then 0 else Calls(acts, i, j - 1) + if acts[j - 1].Call? then 1 else 0
  }

  lemma {:induction false} PatienceRunsOut(c: Config, ds: seq<Data>, acts: seq<Action>, i: nat, j: nat, write: bool)
    requires IsRun(c, ds, acts) && i <= j <= |acts| && (write || c.writesStarved > 0)
    requires forall k | i <= k < j && acts[k].Call? :: Fifo(ds[k], write) != [] && !Chooses(c, ds[k], write)
    ensures ds[i].starved <= c.writesStarved && ds[j].starved <= c.writesStarved
    ensures Patience(c, ds[j], write) + Calls(acts, i, j) <= Patience(c, ds[i], write)
    decreases j - i
  {
    hide Inv, Enabled, Chooses, DispatchOne, AddRequest, FrontMerged, MergedRequests, Patience, Fifo;
    RunKeeps(c, ds, acts, i);
    InvStarved(c, ds[i]);
    if i < j {
      PatienceRunsOut(c, ds, acts, i, j - 1, write);
      RunKeeps(c, ds, acts, j - 1);
      if acts[j - 1].Call? {
        CallCosts(c, ds[j - 1], write);
      } else {
        IdleSame(c, ds[j - 1], acts[j - 1]);
        SamePatience(c, ds[j - 1], ds[j], write);
      }
    }
  }

  lemma SamePatience(c: Config, d: Data, d': Data, write: bool)
    requires d'.batching == d.batching && d'.starved == d.starved && d.starved <= c.writesStarved
    ensures Patience(c, d', write) == Patience(c, d, write)
  {
  }

  lemma PatienceBound(c: Config, d: Data, write: bool)
    requires d.starved <= c.writesStarved
    ensures Patience(c, d, write) <= Turns(c, write) * Batch(c)
  {
    Grows(c.writesStarved - d.starved, c.writesStarved, Batch(c));
    Times(c.writesStarved + 1, Batch(c));
  }

  lemma Grows(a: nat, b: nat, k: nat)
    requires a <= b
    ensures a * k <= b * k
  {
  }

  /** Starvation bound, whatever is added and merged meanwhile: while a write is pending, at most
      (writes_starved + 1) * max(1, fifo_batch) dispatch calls pass without choosing one; while a
      read is pending, at most 2 * max(1, fifo_batch), if writes_starved is not zero. */
  lemma NotStarved(c: Config, ds: seq<Data>, acts: seq<Action>, i: nat, j: nat, write: bool)
    requires IsRun(c, ds, acts) && i <= j <= |acts| && (write || c.writesStarved > 0)
    requires forall k | i <= k < j && acts[k].Call? :: Fifo(ds[k], write) != [] && !Chooses(c, ds[k], write)
    ensures Calls(acts, i, j) <= Turns(c, write) * Batch(c)
  {
    hide Chooses, Patience;
    PatienceRunsOut(c, ds, acts, i, j, write);
    PatienceBound(c, ds[i], write);
  }

  // ---------------------------------------------------------------------------
  // An expired request is dispatched in time
  // ---------------------------------------------------------------------------

  /** How many requests are ahead of one on the fifo. */
  ghost function Ahead(f: seq<Rq>, id: nat): nat {
    if f == [] || f[0].id == id then 0 else 1 + Ahead(f[1..], id)
  }

  ghost predicate HasId(f: seq<Rq>, id: nat) {
    exists r :: r in f && r.id == id
  }

  lemma {:induction false} AheadWithout(f: seq<Rq>, i: nat, id: nat)
    requires i < |f| && f[i].id != id && HasId(f, id)
    ensures Ahead(f[..i] + f[i+1..], id) == Ahead(f, id) - if i < Ahead(f, id) then 1 else 0
    ensures HasId(f[..i] + f[i+1..], id)
    decreases |f|
  {
    var g := f[..i] + f[i+1..];
    var r :| r in f && r.id == id;
    assert r in g by { assert f == f[..i] + [f[i]] + f[i+1..]; }
    if i == 0 {
      assert g == f[1..];
    } else if f[0].id != id {
      assert g[1..] == f[1..][..i-1] + f[1..][i..];
      assert r in f[1..];
      AheadWithout(f[1..], i - 1, id);
    }
  }

  lemma AheadErased(f: seq<Rq>, x: Rq, id: nat)
    requires x.id != id && HasId(f, id)
    ensures Ahead(Erase(f, x), id) <= Ahead(f, id) && HasId(Erase(f, x), id)
  {
    if x in f {
      AheadWithout(f, IndexOf(f, x), id);
    }
  }

  lemma {:induction false} AheadAppended(f: seq<Rq>, y: Rq, id: nat)
    requires HasId(f, id)
    ensures Ahead(f + [y], id) == Ahead(f, id)
    decreases |f|
  {
    var r :| r in f && r.id == id;
    if f[0].id != id {
      assert r in f[1..];
      AheadAppended(f[1..], y, id);
      assert (f + [y])[1..] == f[1..] + [y];
    }
  }

  /** Replacing an entry moves nobody else. */
  lemma {:induction false} AheadSubst(f: seq<Rq>, x: Rq, y: Rq, id: nat)
    requires x.id == y.id || (x.id != id && y.id != id)
    ensures Ahead(Subst(f, x, y), id) == Ahead(f, id)
    decreases |f|
  {
    if f != [] {
      AheadSubst(f[1..], x, y, id);
      assert Subst(f, x, y)[1..] == Subst(f[1..], x, y);
    }
  }

  /** A replacement stands where its predecessor stood. */
  lemma {:induction false} AheadReplaced(f: seq<Rq>, x: Rq, y: Rq)
    requires x in f && (forall r | r in f :: r.id != y.id) && (forall r | r in f && r.id == x.id :: r == x)
    ensures Ahead(Subst(f, x, y), y.id) == Ahead(f, x.id)
    decreases |f|
  {
    if f[0] != x {
      AheadReplaced(f[1..], x, y);
      assert Subst(f, x, y)[1..] == Subst(f[1..], x, y);
    }
  }

  lemma {:induction false} AheadIndex(f: seq<Rq>, i: nat)
    requires UniqueIds(f) && i < |f|
    ensures Ahead(f, f[i].id) == i
    decreases |f|
  {
    if i > 0 {
      AheadIndex(f[1..], i - 1);
    }
  }

  lemma OlderIsAhead(f: seq<Rq>, rq: Rq, next: Rq)
    requires UniqueIds(f) && ByExpiry(f) && rq in f && next in f && next.expires < rq.expires
    ensures Ahead(f, next.id) < Ahead(f, rq.id) == IndexOf(f, rq)
  {
    var i, j := IndexOf(f, rq), IndexOf(f, next);
    assert j < i;
    AheadIndex(f, i);
    AheadIndex(f, j);
  }

  lemma ErasedAt(f: seq<Rq>, x: Rq, id: nat)
    requires x in f && x.id != id && HasId(f, id)
    ensures Ahead(Erase(f, x), id) == Ahead(f, id) - if IndexOf(f, x) < Ahead(f, id) then 1 else 0
  {
    AheadWithout(f, IndexOf(f, x), id);
  }

  /** An absorbed older request lets the one that absorbs it move up, and nobody down. */
  lemma AheadMerged(f: seq<Rq>, rq: Rq, next: Rq, id: nat)
    requires UniqueIds(f) && ByExpiry(f) && rq in f && next in f && next.expires < rq.expires
    requires HasId(f, id) && id != next.id
    ensures Ahead(Subst(Erase(f, rq), next, rq.(expires := next.expires)), id) <= Ahead(f, id)
  {
    hide UniqueIds, ByExpiry, Erase, Subst, Ahead, IndexOf;
    var g := Erase(f, rq);
    var rq' := rq.(expires := next.expires);
    ErasedOnce(f, rq);
    ErasedFrom(f, rq);
    OnlyOne(f, rq);
    OnlyOne(f, next);
    if id == rq.id {
      OlderIsAhead(f, rq, next);
      ErasedAt(f, rq, next.id);
      AheadReplaced(g, next, rq');
    } else {
      ErasedAt(f, rq, id);
      AheadSubst(g, next, rq', id);
    }
  }

  /** The request with this id is pending and has expired. */
  ghost predicate Overdue(d: Data, id: nat, w: bool) {
    exists r :: r in Fifo(d, w) && r.id == id && r.expires < d.now
  }

  lemma AliasOnFifo(l: Lane, rq: Rq, write: bool, latest: int, id: nat)
    requires LooseOk(l, rq, write, latest) && HasId(l.fifo, id)
    ensures var f' := FifoAfter(l.fifo, Alias(l.sort, rq.sector)); HasId(f', id) ==> Ahead(f', id) <= Ahead(l.fifo, id)
  {
    hide Ascending, ByExpiry, Erase;
    var alias := Alias(l.sort, rq.sector);
    if alias.Some? {
      var a := alias.value;
      assert a in multiset(l.sort);
      assert a in multiset(l.fifo);
      if a.id == id {
        ErasedOnce(l.fifo, a);
        ErasedFrom(l.fifo, a);
        OnlyOne(l.fifo, a);
      } else {
        AheadErased(l.fifo, a, id);
      }
    }
  }

  lemma ErasedFrom(f: seq<Rq>, x: Rq)
    ensures forall r | r in Erase(f, x) :: r in f
  {
  }

  /** Whatever is added or merged, a pending request's place on the fifo never grows. */
  lemma PlaceNeverGrows(c: Config, d: Data, a: Action, id: nat, w: bool)
    requires Inv(c, d) && Enabled(d, a) && !a.Call?
    requires HasId(Fifo(d, w), id) && HasId(Fifo(Apply(c, d, a), w), id)
    ensures Ahead(Fifo(Apply(c, d, a), w), id) <= Ahead(Fifo(d, w), id)
  {
    hide Inv, AddSorted, MergedLane, AddRequest;
    match a
    case Add(rq) => AddPlace(c, d, rq, id, w);
    case Front(rq, sector) => FrontPlace(c, d, rq, sector, id, w);
    case Merge(rq, next) => MergePlace(c, d, rq, next, id, w);
    case Tick(_) =>
  }

  lemma AddPlace(c: Config, d: Data, rq: Rq, id: nat, w: bool)
    requires Inv(c, d) && Enabled(d, Add(rq))
    requires HasId(Fifo(d, w), id) && HasId(Fifo(AddRequest(c, d, rq), w), id)
    ensures Ahead(Fifo(AddRequest(c, d, rq), w), id) <= Ahead(Fifo(d, w), id)
  {
    hide Inv, LooseOk, LaneOk, AddSorted, AddRequest, FifoAfter;
    AddIsQueued(c, d, rq);
    QueuedLoose(c, d, rq);
    var q, rq' := Queued(c, d, rq), Timed(c, d, rq);
    AddSortedKeeps(c, q, rq');
    if rq.write == w {
      AheadAppended(Fifo(d, w), rq', id);
      MoreIds(Fifo(d, w), rq', id);
      AliasOnFifo(LaneOf(q, w), rq', w, Latest(c, q, w), id);
    }
  }

  lemma MoreIds(f: seq<Rq>, y: Rq, id: nat)
    requires HasId(f, id)
    ensures HasId(f + [y], id)
  {
    var r :| r in f && r.id == id;
    assert r in f + [y];
  }

  lemma FrontPlace(c: Config, d: Data, rq: Rq, sector: int, id: nat, w: bool)
    requires Inv(c, d) && Enabled(d, Front(rq, sector))
    requires HasId(Fifo(d, w), id) && HasId(Fifo(FrontMerged(d, rq, sector), w), id)
    ensures Ahead(Fifo(FrontMerged(d, rq, sector), w), id) <= Ahead(Fifo(d, w), id)
  {
    hide Inv, LooseOk, LaneOk, AddSorted, FifoAfter, Subst;
    var u, rq' := Unsorted(d, rq, sector), rq.(sector := sector);
    UnsortedLoose(c, d, rq, sector);
    AddSortedKeeps(c, u, rq');
    if rq.write == w {
      AheadSubst(Fifo(d, w), rq, rq', id);
      SameIds(Fifo(d, w), rq, rq', id);
      AliasOnFifo(LaneOf(u, w), rq', w, Latest(c, u, w), id);
    }
  }

  lemma SameIds(f: seq<Rq>, x: Rq, y: Rq, id: nat)
    requires HasId(f, id) && x.id == y.id
    ensures HasId(Subst(f, x, y), id)
  {
    var r :| r in f && r.id == id;
    var i :| 0 <= i < |f| && f[i] == r;
    assert Subst(f, x, y)[i].id == id;
  }

  lemma MergePlace(c: Config, d: Data, rq: Rq, next: Rq, id: nat, w: bool)
    requires Inv(c, d) && Enabled(d, Merge(rq, next))
    requires HasId(Fifo(d, w), id) && HasId(Fifo(MergedRequests(d, rq, next), w), id)
    ensures Ahead(Fifo(MergedRequests(d, rq, next), w), id) <= Ahead(Fifo(d, w), id)
  {
    hide Ascending, UniqueIds, ByExpiry, Erase, Subst;
    if rq.write == w {
      var f := Fifo(d, w);
      LaneInv(c, d, w);
      SameMembers(LaneOf(d, w), w, Latest(c, d, w));
      if id == next.id {
        AbsorbedIsGone(f, rq, next);
      } else if next.expires < rq.expires {
        AheadMerged(f, rq, next, id);
      } else {
        AheadErased(f, next, id);
      }
    }
  }

  lemma AbsorbedIsGone(f: seq<Rq>, rq: Rq, next: Rq)
    requires UniqueIds(f) && rq in f && next in f && rq != next
    ensures !HasId(Erase(f, next), next.id)
    ensures !HasId(Subst(Erase(f, rq), next, rq.(expires := next.expires)), next.id)
  {
    hide Erase;
    ErasedOnce(f, next);
    ErasedFrom(f, next);
    ErasedFrom(f, rq);
    OnlyOne(f, next);
    OnlyOne(f, rq);
  }

  /** Every request with this id on one fifo expires no later than one with it on the other. */
  ghost predicate NotLater(f: seq<Rq>, f': seq<Rq>, id: nat) {
    forall r' | r' in f' && r'.id == id :: exists r :: r in f && r.id == id && r'.expires <= r.expires
  }

  lemma OverdueStays(d: Data, d': Data, id: nat, w: bool)
    requires Overdue(d, id, w) && UniqueIds(Fifo(d, w)) && NotLater(Fifo(d, w), Fifo(d', w), id)
    requires HasId(Fifo(d', w), id) && d.now <= d'.now
    ensures Overdue(d', id, w)
  {
    var r :| r in Fifo(d, w) && r.id == id && r.expires < d.now;
    OnlyOne(Fifo(d, w), r);
    var r' :| r' in Fifo(d', w) && r'.id == id;
    var r'' :| r'' in Fifo(d, w) && r''.id == id && r'.expires <= r''.expires;
  }

  lemma ErasedNotLater(f: seq<Rq>, x: Rq, id: nat)
    ensures NotLater(f, Erase(f, x), id)
  {
    ErasedFrom(f, x);
  }

  lemma AddNotLater(c: Config, d: Data, rq: Rq, id: nat, w: bool)
    requires Inv(c, d) && Enabled(d, Add(rq)) && HasId(Fifo(d, w), id)
    ensures NotLater(Fifo(d, w), Fifo(AddRequest(c, d, rq), w), id)
  {
    hide Inv, LooseOk, LaneOk, AddSorted, AddRequest, Erase;
    AddIsQueued(c, d, rq);
    QueuedLoose(c, d, rq);
    var q, rq' := Queued(c, d, rq), Timed(c, d, rq);
    AddSortedKeeps(c, q, rq');
    if rq.write == w {
      var alias := Alias(LaneOf(q, w).sort, rq'.sector);
      if alias.Some? { ErasedFrom(Fifo(q, w), alias.value); }
      assert forall r | r in Fifo(q, w) :: r in Fifo(d, w) || r == rq';
    }
  }

  lemma FrontNotLater(c: Config, d: Data, rq: Rq, sector: int, id: nat, w: bool)
    requires Inv(c, d) && Enabled(d, Front(rq, sector)) && HasId(Fifo(d, w), id)
    ensures NotLater(Fifo(d, w), Fifo(FrontMerged(d, rq, sector), w), id)
  {
    hide LooseOk, AddSorted, Erase, Subst, Ascending, UniqueIds, ByExpiry;
    var u, rq' := Unsorted(d, rq, sector), rq.(sector := sector);
    UnsortedLoose(c, d, rq, sector);
    AddSortedKeeps(c, u, rq');
    if rq.write == w {
      LaneInv(c, d, w);
      SameMembers(LaneOf(d, w), w, Latest(c, d, w));
      SubstHas(Fifo(d, w), rq, rq');
      var alias := Alias(LaneOf(u, w).sort, rq'.sector);
      if alias.Some? { ErasedFrom(Fifo(u, w), alias.value); }
    }
  }

  lemma MergeNotLater(c: Config, d: Data, rq: Rq, next: Rq, id: nat, w: bool)
    requires Inv(c, d) && Enabled(d, Merge(rq, next))
    ensures NotLater(Fifo(d, w), Fifo(MergedRequests(d, rq, next), w), id)
  {
    hide Erase, Subst, Ascending, UniqueIds, ByExpiry;
    if rq.write == w {
      LaneInv(c, d, w);
      SameMembers(LaneOf(d, w), w, Latest(c, d, w));
      if next.expires < rq.expires {
        ErasedFrom(Fifo(d, w), rq);
        ErasedOnce(Fifo(d, w), rq);
        SubstHas(Erase(Fifo(d, w), rq), next, rq.(expires := next.expires));
      } else {
        ErasedFrom(Fifo(d, w), next);
      }
    }
  }

  lemma CallFifo(c: Config, d: Data, w: bool)
    requires Inv(c, d)
    ensures var d' := DispatchOne(c, d).0;
            d'.now == d.now && (Fifo(d', w) == Fifo(d, w) || exists x :: x in Fifo(d, w) && Fifo(d', w) == Erase(Fifo(d, w), x))
  {
    hide LaneOk, MoveRequest, FindRequest, Erase;
    NextPending(c, d);
    LaneInv(c, d, true);
    LaneInv(c, d, false);
    FindsPending(d.write, true, Latest(c, d, true), d.now);
    FindsPending(d.read, false, Latest(c, d, false), d.now);
    var rq := if d.write.next.Some? then d.write.next else d.read.next;
    if rq.Some? && d.batching < c.fifoBatch {
      MovedFifo(c, d.(batching := d.batching + 1), rq.value, w);
    } else {
      if FindRequest(d.write, d.now).Some? { MovedFifo(c, d.(batching := 1, starved := 0), FindRequest(d.write, d.now).value, w); }
      if FindRequest(d.read, d.now).Some? {
        MovedFifo(c, d.(batching := 1), FindRequest(d.read, d.now).value, w);
        if d.starved < c.writesStarved { MovedFifo(c, d.(batching := 1, starved := d.starved + 1), FindRequest(d.read, d.now).value, w); }
      }
    }
  }

  lemma MovedFifo(c: Config, d: Data, rq: Rq, w: bool)
    requires Inv(c, d) && rq in LaneOf(d, rq.write).sort
    ensures MoveRequest(d, rq).now == d.now
    ensures Fifo(MoveRequest(d, rq), w) == if rq.write == w then Erase(Fifo(d, w), rq) else Fifo(d, w)
    ensures rq in Fifo(d, rq.write)
  {
    hide LaneOk, Erase, MoveRequest;
    MoveKeeps(c, d, rq);
    MoveSame(d, rq);
    LaneInv(c, d, rq.write);
    SameMembers(LaneOf(d, rq.write), rq.write, Latest(c, d, rq.write));
  }

  lemma CallNotLater(c: Config, d: Data, id: nat, w: bool)
    requires Inv(c, d)
    ensures NotLater(Fifo(d, w), Fifo(DispatchOne(c, d).0, w), id) && d.now <= DispatchOne(c, d).0.now
  {
    hide Inv, DispatchOne, Erase, NotLater;
    var d' := DispatchOne(c, d).0;
    CallFifo(c, d, w);
    NothingLater(Fifo(d, w), id);
    if Fifo(d', w) != Fifo(d, w) {
      var x :| x in Fifo(d, w) && Fifo(d', w) == Erase(Fifo(d, w), x);
      ErasedNotLater(Fifo(d, w), x, id);
    }
  }

  lemma StepNotLater(c: Config, d: Data, a: Action, id: nat, w: bool)
    requires Inv(c, d) && Enabled(d, a) && HasId(Fifo(d, w), id)
    ensures NotLater(Fifo(d, w), Fifo(Apply(c, d, a), w), id) && d.now <= Apply(c, d, a).now
  {
    hide Inv, AddRequest, FrontMerged, MergedRequests, DispatchOne, NotLater, HasId;
    match a
    case Add(rq) => AddNotLater(c, d, rq, id, w); IdleSame(c, d, a);
    case Front(rq, sector) => FrontNotLater(c, d, rq, sector, id, w); IdleSame(c, d, a);
    case Merge(rq, next) => MergeNotLater(c, d, rq, next, id, w); IdleSame(c, d, a);
    case Tick(_) => NothingLater(Fifo(d, w), id);
    case Call => CallNotLater(c, d, id, w);
  }

  lemma StepOverdue(c: Config, d: Data, a: Action, id: nat, w: bool)
    requires Inv(c, d) && Enabled(d, a) && Overdue(d, id, w) && HasId(Fifo(Apply(c, d, a), w), id)
    ensures Overdue(Apply(c, d, a), id, w)
  {
    hide Inv, Apply, NotLater, UniqueIds;
    assert HasId(Fifo(d, w), id);
    StepNotLater(c, d, a, id, w);
    IdsOf(c, d, w);
    OverdueStays(d, Apply(c, d, a), id, w);
  }

  lemma NothingLater(f: seq<Rq>, id: nat)
    ensures NotLater(f, f, id)
  {
  }

  lemma IdsOf(c: Config, d: Data, w: bool)
    requires Inv(c, d)
    ensures UniqueIds(Fifo(d, w)) && ByExpiry(Fifo(d, w))
  {
    LaneInv(c, d, w);
  }

  /** How many calls may still pass before the request is dispatched. */
  ghost function Wait(c: Config, d: Data, id: nat, w: bool): nat
    requires d.starved <= c.writesStarved
  {
    Patience(c, d, w) + Ahead(Fifo(d, w), id) * (Turns(c, w) * Batch(c))
  }

  /** The head of the fifo has expired if anything on it has. */
  lemma HeadExpired(l: Lane, id: nat, now: int)
    requires ByExpiry(l.fifo) && exists r :: r in l.fifo && r.id == id && r.expires < now
    ensures Expired(l, now) && FindRequest(l, now) == Some(l.fifo[0])
  {
    var r :| r in l.fifo && r.id == id && r.expires < now;
    var i :| 0 <= i < |l.fifo| && l.fifo[i] == r;
  }

  lemma HeadGone(f: seq<Rq>, id: nat)
    requires UniqueIds(f) && f != []
    ensures Erase(f, f[0]) == f[1..]
    ensures HasId(f[1..], id) ==> Ahead(f, id) == 1 + Ahead(f[1..], id)
  {
    if HasId(f[1..], id) {
      var r :| r in f[1..] && r.id == id;
      var k :| 0 <= k < |f[1..]| && f[1..][k] == r;
      assert f[k+1] == r;
    }
  }

  /** A new batch starts with the head of the fifo. */
  lemma HeadLeaves(c: Config, d: Data, id: nat, w: bool)
    requires Inv(c, d) && Overdue(d, id, w)
    ensures HasId(Fifo(StartBatch(d, w).0, w), id) ==>
              Ahead(Fifo(d, w), id) > 0 && Ahead(Fifo(StartBatch(d, w).0, w), id) == Ahead(Fifo(d, w), id) - 1
  {
    hide Inv, UniqueIds, ByExpiry, MoveRequest, FindRequest, HasId, Ahead, Erase;
    IdsOf(c, d, w);
    HeadExpired(LaneOf(d, w), id, d.now);
    var x := Fifo(d, w)[0];
    assert x in Fifo(d, w);
    OnTree(c, d, w, x);
    SameInv(c, d);
    MovedFifo(c, d.(batching := 1), x, w);
    HeadGone(Fifo(d, w), id);
  }

  lemma OnTree(c: Config, d: Data, w: bool, x: Rq)
    requires Inv(c, d) && x in Fifo(d, w)
    ensures x in LaneOf(d, w).sort && x.write == w
  {
    hide Ascending, UniqueIds, ByExpiry;
    LaneInv(c, d, w);
    SameMembers(LaneOf(d, w), w, Latest(c, d, w));
  }

  lemma SameInv(c: Config, d: Data)
    requires Inv(c, d)
    ensures Inv(c, d.(batching := 1))
  {
    hide LaneOk;
  }

  lemma AheadAfterCall(c: Config, d: Data, id: nat, w: bool)
    requires Inv(c, d) && HasId(Fifo(d, w), id) && HasId(Fifo(DispatchOne(c, d).0, w), id)
    ensures Ahead(Fifo(DispatchOne(c, d).0, w), id) <= Ahead(Fifo(d, w), id)
  {
    hide LaneOk, DispatchOne, Erase;
    CallFifo(c, d, w);
    IdsOf(c, d, w);
    var f, f' := Fifo(d, w), Fifo(DispatchOne(c, d).0, w);
    if f' != f {
      var x :| x in f && f' == Erase(f, x);
      if x.id == id {
        ErasedOnce(f, x);
        ErasedFrom(f, x);
        OnlyOne(f, x);
      } else {
        AheadErased(f, x, id);
      }
    }
  }

  /** A call either dispatches the overdue request or brings it nearer. */
  lemma CallServes(c: Config, d: Data, id: nat, w: bool)
    requires Inv(c, d) && Overdue(d, id, w) && HasId(Fifo(DispatchOne(c, d).0, w), id) && (w || c.writesStarved > 0)
    ensures d.starved <= c.writesStarved && DispatchOne(c, d).0.starved <= c.writesStarved
    ensures Wait(c, DispatchOne(c, d).0, id, w) < Wait(c, d, id, w)
  {
    hide LaneOk, DispatchOne, StartBatch, Ahead, Overdue, HasId;
    CallCases(c, d);
    OverdueIsPending(d, id, w);
    AheadAfterCall(c, d, id, w);
    var k := Turns(c, w) * Batch(c);
    var f, d' := Fifo(d, w), DispatchOne(c, d).0;
    Grows(Ahead(Fifo(d', w), id), Ahead(f, id), k);
    if InBatch(c, d) {
    } else if Chooses(c, d, w) {
      OverdueSame(d, d.(starved := d'.starved), id, w);
      HeadLeaves(c, d.(starved := d'.starved), id, w);
      Times(Ahead(f, id), k);
      Times(c.writesStarved + 1, Batch(c));
    } else {
      CallCosts(c, d, w);
    }
  }

  lemma OverdueIsPending(d: Data, id: nat, w: bool)
    requires Overdue(d, id, w)
    ensures HasId(Fifo(d, w), id) && Fifo(d, w) != []
  {
  }

  lemma OverdueSame(d: Data, d': Data, id: nat, w: bool)
    requires Overdue(d, id, w) && d'.read == d.read && d'.write == d.write && d'.now == d.now
    ensures Overdue(d', id, w)
  {
  }

  lemma {:induction false} WaitRunsOut(c: Config, ds: seq<Data>, acts: seq<Action>, i: nat, j: nat, id: nat, w: bool)
    requires IsRun(c, ds, acts) && i <= j <= |acts| && Overdue(ds[i], id, w) && (w || c.writesStarved > 0)
    requires forall k | i <= k <= j :: HasId(Fifo(ds[k], w), id)
    ensures ds[i].starved <= c.writesStarved && ds[j].starved <= c.writesStarved && Overdue(ds[j], id, w)
    ensures Wait(c, ds[j], id, w) + Calls(acts, i, j) <= Wait(c, ds[i], id, w)
    decreases j - i
  {
    hide Inv, Overdue, HasId, DispatchOne, AddRequest, FrontMerged, MergedRequests, Wait;
    RunKeeps(c, ds, acts, i);
    InvStarved(c, ds[i]);
    if i < j {
      WaitRunsOut(c, ds, acts, i, j - 1, id, w);
      RunKeeps(c, ds, acts, j - 1);
      assert ds[j] == Apply(c, ds[j - 1], acts[j - 1]);
      StepOverdue(c, ds[j - 1], acts[j - 1], id, w);
      if acts[j - 1].Call? {
        CallServes(c, ds[j - 1], id, w);
      } else {
        IdleSame(c, ds[j - 1], acts[j - 1]);
        PlaceNeverGrows(c, ds[j - 1], acts[j - 1], id, w);
        WaitNeverGrows(c, ds[j - 1], ds[j], id, w);
      }
    }
  }

  lemma WaitNeverGrows(c: Config, d: Data, d': Data, id: nat, w: bool)
    requires d'.batching == d.batching && d'.starved == d.starved && d.starved <= c.writesStarved
    requires Ahead(Fifo(d', w), id) <= Ahead(Fifo(d, w), id)
    ensures Wait(c, d', id, w) <= Wait(c, d, id, w)
  {
    hide Ahead, Patience;
    SamePatience(c, d, d', w);
    Grows(Ahead(Fifo(d', w), id), Ahead(Fifo(d, w), id), Turns(c, w) * Batch(c));
  }

  /** Deadline bound: an overdue write with p requests ahead of it stays pending for at most
      (p + 1) * (writes_starved + 1) * max(1, fifo_batch) dispatch calls, and an overdue read for at
      most (p + 1) * 2 * max(1, fifo_batch), if writes_starved is not zero. */
  lemma OverdueAreServed(c: Config, ds: seq<Data>, acts: seq<Action>, i: nat, j: nat, id: nat, w: bool)
    requires IsRun(c, ds, acts) && i <= j <= |acts| && Overdue(ds[i], id, w) && (w || c.writesStarved > 0)
    requires forall k | i <= k <= j :: HasId(Fifo(ds[k], w), id)
    ensures Calls(acts, i, j) <= (Ahead(Fifo(ds[i], w), id) + 1) * (Turns(c, w) * Batch(c))
  {
    hide Overdue, HasId, Patience, Ahead;
    WaitRunsOut(c, ds, acts, i, j, id, w);
    PatienceBound(c, ds[i], w);
    Times(Ahead(Fifo(ds[i], w), id) + 1, Turns(c, w) * Batch(c));
  }
}
