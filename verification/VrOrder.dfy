/** Which request the V(R) scheduler dispatches next. */
module VrOrder {
  import opened Common
  import opened RequestTree
  import opened Vr
  import opened VrRuns

  // ---------------------------------------------------------------------------
  // The neighbours of the head
  // ---------------------------------------------------------------------------

  /** Nothing pending lies between the head and x, at or above the head. */
  ghost predicate NearestAbove(t: seq<Rq>, last: int, x: Rq) {
    x in t && x.sector >= last && forall r | r in t && r.sector >= last :: x.sector <= r.sector
  }

  /** The same below the head. */
  ghost predicate NearestBelow(t: seq<Rq>, last: int, x: Rq) {
    x in t && x.sector < last && forall r | r in t && r.sector < last :: r.sector <= x.sector
  }

  /** x is one of the two neighbours; the only one there is; or the one that the penalties prefer. */
  ghost predicate IsNeighbour(c: Config, t: seq<Rq>, last: int, forward: bool, x: Rq) {
    && (NearestAbove(t, last, x) || NearestBelow(t, last, x))
    && (forall a, b | NearestAbove(t, last, a) && NearestBelow(t, last, b) ::
          x == if GoesAhead(c, forward, a.sector - last, last - b.sector) then a else b)
  }

  lemma NextIsNearest(d: Data, a: Rq)
    requires Sorted(d)
    ensures NearestAbove(d.sort, d.last, a) <==> d.next == Some(a)
  {
    hide Sorted;
    CacheMeans(d);
    InOrderOf(d);
    if NearestAbove(d.sort, d.last, a) {
      OneAt(d.sort, a, d.next.value);
    }
  }

  lemma PrevIsNearest(d: Data, b: Rq)
    requires Sorted(d)
    ensures NearestBelow(d.sort, d.last, b) <==> d.prev == Some(b)
  {
    hide Sorted;
    CacheMeans(d);
    InOrderOf(d);
    if NearestBelow(d.sort, d.last, b) {
      OneAt(d.sort, b, d.prev.value);
    }
  }

  lemma ChooseIsNeighbour(c: Config, d: Data)
    requires Sorted(d) && d.sort != []
    ensures Choose(c, d).Some? && IsNeighbour(c, d.sort, d.last, d.forward, Choose(c, d).value)
  {
    hide Sorted, GoesAhead, NearestAbove, NearestBelow;
    ChooseFinds(c, d);
    forall r ensures (NearestAbove(d.sort, d.last, r) <==> d.next == Some(r)) && (NearestBelow(d.sort, d.last, r) <==> d.prev == Some(r)) {
      NextIsNearest(d, r);
      PrevIsNearest(d, r);
    }
  }

  lemma InOrderOf(d: Data)
    requires Sorted(d)
    ensures Ascending(d.sort)
  {
  }

  lemma OneAt(t: seq<Rq>, x: Rq, y: Rq)
    requires Ascending(t) && x in t && y in t && x.sector == y.sector
    ensures x == y
  {
  }

  /** The request that a call dispatches. */
  ghost function Sent(c: Config, d: Data, now: int): Option<Rq> {
    var d' := DispatchOne(c, d, now).0;
    if |d'.dispatch| > |d.dispatch| then Some(d'.dispatch[|d.dispatch|]) else None
  }

  ghost predicate OnEither(d: Data, r: Rq) {
    r in d.sync || r in d.async
  }

  ghost predicate SomeExpired(d: Data, now: int) {
    exists r :: OnEither(d, r) && r.expires < now
  }

  /** x waits on a fifo, and nothing there expires before it; between the two fifos async goes first. */
  ghost predicate Oldest(d: Data, x: Rq) {
    && OnEither(d, x)
    && (forall r | OnEither(d, r) :: x.expires <= r.expires)
    && (x !in d.async ==> forall r | r in d.async :: x.expires < r.expires)
  }

  /** What a call dispatches: the oldest request if the fifos are due and something on them has
      expired, and otherwise a neighbour of the head. */
  ghost predicate InTurn(c: Config, d: Data, now: int, x: Rq) {
    if d.nbatched > c.fifoBatch && SomeExpired(d, now) then Oldest(d, x) && x.expires < now else IsNeighbour(c, d.sort, d.last, d.forward, x)
  }

  lemma HeadIsOldest(f: seq<Rq>, latest: int, r: Rq)
    requires FifoOk(f, latest) && r in f
    ensures f[0].expires <= r.expires
  {
    var k :| 0 <= k < |f| && f[k] == r;
  }

  lemma CheckFindsOldest(c: Config, d: Data, now0: int, now: int)
    requires InOrder(c, d, now0)
    ensures CheckFifo(d, now).Some? <==> SomeExpired(d, now)
    ensures CheckFifo(d, now).Some? ==> Oldest(d, CheckFifo(d, now).value) && CheckFifo(d, now).value.expires < now
  {
    hide FifoOk;
    forall r | r in d.sync ensures d.sync[0].expires <= r.expires {
      HeadIsOldest(d.sync, now0 + c.syncExpire, r);
    }
    forall r | r in d.async ensures d.async[0].expires <= r.expires {
      HeadIsOldest(d.async, now0 + c.asyncExpire, r);
    }
    if d.sync != [] { assert OnEither(d, d.sync[0]); }
    if d.async != [] { assert OnEither(d, d.async[0]); }
  }

  lemma MoveSends(d: Data, x: Rq)
    ensures Move(d, x).dispatch == d.dispatch + [x]
  {
  }

  lemma SameOldest(d: Data, d': Data, now: int)
    requires d' == d.(nbatched := d'.nbatched)
    ensures SomeExpired(d', now) == SomeExpired(d, now)
    ensures forall x :: Oldest(d', x) == Oldest(d, x)
  {
    assert forall r :: OnEither(d', r) == OnEither(d, r);
  }

  lemma SentInTurn(c: Config, d: Data, now0: int, now: int)
    requires Valid(d) && InOrder(c, d, now0)
    ensures Sent(c, d, now).None? <==> d.sort == []
    ensures Sent(c, d, now).Some? ==> InTurn(c, d, now, Sent(c, d, now).value)
  {
    hide Valid, Sorted, FifoOk, Move, CheckFifo, Choose, IsNeighbour, Oldest, SomeExpired;
    var due := d.nbatched > c.fifoBatch;
    var d1 := if due then d.(nbatched := 0) else d;
    UnbatchedKeeps(d);
    ValidSorted(d1);
    SameOldest(d1, d, now);
    CheckFindsOldest(c, d1, now0, now);
    ChooseFinds(c, d1);
    ExpiredIsSorted(d1, now);
    if d.sort != [] {
      ChooseIsNeighbour(c, d1);
    }
    var expired := if due then CheckFifo(d1, now) else None;
    var rq := if expired.Some? then expired else Choose(c, d1);
    if rq.Some? {
      MoveSends(d1, rq.value);
    }
  }

  /** Unless the fifos are due and something on them has expired, a neighbour of the head goes. */
  lemma NeighbourSent(c: Config, d: Data, now: int)
    requires Valid(d) && d.sort != [] && (d.nbatched <= c.fifoBatch || !SomeExpired(d, now))
    ensures Sent(c, d, now).Some? && IsNeighbour(c, d.sort, d.last, d.forward, Sent(c, d, now).value)
  {
    hide Valid, Sorted, Move, Choose, IsNeighbour;
    var due := d.nbatched > c.fifoBatch;
    var d1 := if due then d.(nbatched := 0) else d;
    UnbatchedKeeps(d);
    ValidSorted(d1);
    ChooseIsNeighbour(c, d1);
    MoveSends(d1, Choose(c, d1).value);
    if due {
      NoneChecked(d1, now);
    }
  }

  lemma NoneChecked(d: Data, now: int)
    ensures CheckFifo(d, now).Some? ==> OnEither(d, CheckFifo(d, now).value) && CheckFifo(d, now).value.expires < now
  {
  }

  /** In every run whose clock does not go back, a call that finds something pending dispatches the
      request whose turn it is. */
  lemma DispatchInTurn(c: Config, ds: seq<Data>, acts: seq<Action>, now: seq<int>, i: nat)
    requires IsTimedRun(c, ds, acts, now) && i < |acts| && acts[i].Call?
    ensures Sent(c, ds[i], acts[i].now).None? <==> ds[i].sort == []
    ensures Sent(c, ds[i], acts[i].now).Some? ==> InTurn(c, ds[i], acts[i].now, Sent(c, ds[i], acts[i].now).value)
  {
    hide Valid, InOrder, Sent, InTurn, Enabled, Apply;
    RunKeeps(c, ds, acts, i);
    FifosInOrder(c, ds, acts, now, i);
    SentInTurn(c, ds[i], now[i], acts[i].now);
  }

  // ---------------------------------------------------------------------------
  // The head
  // ---------------------------------------------------------------------------

  /** Where the n-th dispatch left the head. */
  ghost function HeadAfter(dispatch: seq<Rq>, n: nat): int
    requires n <= |dispatch|
  {
    if n == 0 then 0 else dispatch[n - 1].sector
  }

  /** last_sector is where the last dispatch was, and head_dir how the head got there. */
  ghost predicate HeadOk(d: Data) {
    var n := |d.dispatch|;
    d.last == HeadAfter(d.dispatch, n) && (n > 0 ==> (d.forward <==> d.last > HeadAfter(d.dispatch, n - 1)))
  }

  lemma MoveHead(d: Data, x: Rq)
    requires HeadOk(d)
    ensures HeadOk(Move(d, x))
  {
    hide Erase, Successor, Predecessor;
  }

  lemma AddSortedHead(d: Data, rq: Rq)
    requires HeadOk(d)
    ensures HeadOk(AddSorted(d, rq))
  {
    hide Move, Alias, Insert;
    if Alias(d.sort, rq.sector).Some? {
      MoveHead(d, Alias(d.sort, rq.sector).value);
    }
  }

  lemma StepHead(c: Config, d: Data, a: Action)
    requires HeadOk(d)
    ensures HeadOk(Apply(c, d, a))
  {
    hide AddSorted, Move, CheckFifo, Choose, Erase, Subst, Successor, Predecessor;
    match a
    case Add(now, rq) =>
      var expire := if rq.sync then c.syncExpire else c.asyncExpire;
      AddSortedHead(d.(nrSorted := d.nrSorted + 1), if expire != 0 then rq.(expires := now + expire) else rq);
    case Front(rq, sector) =>
      var rq', d1 := rq.(sector := sector), Del(d, rq);
      AddSortedHead(d1.(sync := Subst(d1.sync, rq, rq'), async := Subst(d1.async, rq, rq')), rq');
    case Merge(_, _) =>
    case Call(now) =>
      var due := d.nbatched > c.fifoBatch;
      var d1 := if due then d.(nbatched := 0) else d;
      var expired := if due then CheckFifo(d1, now) else None;
      var rq := if expired.Some? then expired else Choose(c, d1);
      if rq.Some? {
        MoveHead(d1, rq.value);
      }
  }

  /** In every state of every run the head is where the last dispatch left it, moving as it moved. */
  lemma {:induction false} HeadFollows(c: Config, ds: seq<Data>, acts: seq<Action>, i: nat)
    requires IsRun(c, ds, acts) && i <= |acts|
    ensures HeadOk(ds[i])
  {
    hide Apply, Enabled;
    if i > 0 {
      HeadFollows(c, ds, acts, i - 1);
      StepHead(c, ds[i - 1], acts[i - 1]);
    }
  }

  // ---------------------------------------------------------------------------
  // The penalty for turning round
  // ---------------------------------------------------------------------------

  /** The documented choice: the distance, times rev_penalty if the head would turn round. */
  ghost predicate Documented(p: nat, forward: bool, ahead: int, behind: int) {
    if forward then ahead <= p * behind else p * ahead <= behind
  }

  /** A rev_penalty of one is documented to serve the nearest request first.  It makes the head go on
      in its direction instead, except to a request at the very head. */
  lemma OneGoesOn(c: Config, forward: bool, ahead: nat, behind: nat)
    requires c.revPenalty == 1
    ensures GoesAhead(c, forward, ahead, behind) <==> forward || ahead == 0
  {
  }

  /** A rev_penalty of zero is documented to make the head go on in its direction.  It serves the
      nearest request first, up to a distance of INT_MAX. */
  lemma ZeroIsNearest(c: Config, forward: bool, ahead: nat, behind: nat)
    requires c.revPenalty == 0 && (if forward then ahead else behind) < INT_MAX
    ensures GoesAhead(c, forward, ahead, behind) <==> ahead <= behind
  {
  }

  function Most(a: int, b: int): int {
    if a > b then a else b
  }

  /** With the default of ten, moving forward, the head turns round for a request that the documented
      choice leaves for later. */
  lemma TurnsTooEarly() returns (c: Config, ahead: nat, behind: nat)
    ensures c.revPenalty == 10 && Documented(10, true, ahead, behind) && !GoesAhead(c, true, ahead, behind)
  {
    c, ahead, behind := Config(0, 0, 16, 10), 19, 5;
  }

  lemma Quotient(p: nat, n: nat, v: nat)
    requires p > 0
    ensures p * v <= n <==> v <= n / p
  {
    if v <= n / p {
      Grows(v, n / p, p);
    } else {
      Grows(n / p + 1, v, p);
    }
  }

  /** Moving backward, the documented choice is made whatever is ahead if and only if the remainder
      and the quotient of the distance behind agree. */
  lemma BackwardIff(c: Config, behind: nat)
    requires c.revPenalty > 0
    ensures (forall ahead: nat :: GoesAhead(c, false, ahead, behind) <==> Documented(c.revPenalty, false, ahead, behind))
            <==> behind % c.revPenalty == behind / c.revPenalty
  {
    hide Documented;
    var p := c.revPenalty;
    forall ahead: nat ensures GoesAhead(c, false, ahead, behind) <==> ahead <= behind % p {
    }
    forall ahead: nat ensures Documented(p, false, ahead, behind) <==> ahead <= behind / p {
      DocumentedBackward(p, ahead, behind);
    }
    if behind % p != behind / p {
      var ahead: nat := Most(behind % p, behind / p);
      assert GoesAhead(c, false, ahead, behind) != Documented(p, false, ahead, behind);
    }
  }

  lemma DocumentedBackward(p: nat, ahead: nat, behind: nat)
    requires p > 0
    ensures Documented(p, false, ahead, behind) <==> ahead <= behind / p
  {
    Quotient(p, behind, ahead);
  }

  /** How many times p goes into n, rounded up. */
  function RoundedUp(n: nat, p: nat): nat
    requires p > 0
  {
    (n + p - 1) / p
  }

  lemma DocumentedForward(p: nat, ahead: nat, behind: nat)
    requires p > 0
    ensures Documented(p, true, ahead, behind) <==> RoundedUp(ahead, p) <= behind
  {
    Quotient(p, ahead + p - 1, behind + 1);
    assert p * (behind + 1) == p * behind + p;
  }

  /** Moving forward, the documented choice is made whatever is behind if and only if the remainder
      and the rounded-up quotient of the distance ahead agree, with one for zero. */
  lemma ForwardIff(c: Config, ahead: nat)
    requires c.revPenalty > 0
    ensures (forall behind: nat | behind > 0 :: GoesAhead(c, true, ahead, behind) <==> Documented(c.revPenalty, true, ahead, behind))
            <==> Most(1, ahead % c.revPenalty) == Most(1, RoundedUp(ahead, c.revPenalty))
  {
    hide Documented, RoundedUp;
    var p := c.revPenalty;
    var m, q := Most(1, ahead % p), Most(1, RoundedUp(ahead, p));
    forall behind: nat | behind > 0 ensures GoesAhead(c, true, ahead, behind) <==> m <= behind {
    }
    forall behind: nat | behind > 0 ensures Documented(p, true, ahead, behind) <==> q <= behind {
      DocumentedForward(p, ahead, behind);
    }
    if m != q {
      var behind: nat := if m < q then m else q;
      assert GoesAhead(c, true, ahead, behind) != Documented(p, true, ahead, behind);
    }
  }
}
