/** How long the V(R) scheduler can keep an expired request waiting. */
module VrRuns {
  import opened Common
  import opened RequestTree
  import opened Vr

  // ---------------------------------------------------------------------------
  // One fifo
  // ---------------------------------------------------------------------------

  ghost predicate ByExpiry(f: seq<Rq>) {
    forall i, j | 0 <= i < j < |f| :: f[i].expires <= f[j].expires
  }

  /** The requests of a fifo that expire by t. */
  ghost function DueBy(f: seq<Rq>, t: int): set<Rq> {
    set r | r in f && r.expires <= t
  }

  ghost predicate HasId(f: seq<Rq>, id: nat) {
    exists r :: r in f && r.id == id
  }

  /** Whatever has this id expires by t. */
  ghost predicate AllBy(f: seq<Rq>, id: nat, t: int) {
    forall r | r in f && r.id == id :: r.expires <= t
  }

  lemma WithoutOne(f: seq<Rq>, i: nat, r: Rq)
    requires NoDup(f) && i < |f|
    ensures r in f[..i] + f[i+1..] <==> r in f && r != f[i]
  {
    var g := f[..i] + f[i+1..];
    if r in f && r != f[i] {
      var k :| 0 <= k < |f| && f[k] == r;
      assert g[if k < i then k else k - 1] == r;
    }
    if r in g {
      var k :| 0 <= k < |g| && g[k] == r;
      assert f[if k < i then k else k + 1] == r;
    }
  }

  lemma WithoutOrder(f: seq<Rq>, i: nat)
    requires ByExpiry(f) && i < |f|
    ensures ByExpiry(f[..i] + f[i+1..])
  {
    var g := f[..i] + f[i+1..];
    forall a, b | 0 <= a < b < |g| ensures g[a].expires <= g[b].expires {
      assert g[a] == f[if a < i then a else a + 1] && g[b] == f[if b < i then b else b + 1];
    }
  }

  lemma EraseIs(f: seq<Rq>, x: Rq)
    requires NoDup(f)
    ensures forall r :: r in Erase(f, x) <==> r in f && r != x
    ensures ByExpiry(f) ==> ByExpiry(Erase(f, x))
  {
    hide NoDup, ByExpiry;
    if x in f {
      var i := IndexOf(f, x);
      forall r ensures r in Erase(f, x) <==> r in f && r != x {
        WithoutOne(f, i, r);
      }
      if ByExpiry(f) {
        WithoutOrder(f, i);
      }
    } else {
      EraseNothing(f, x);
    }
  }

  lemma SubstIs(f: seq<Rq>, x: Rq, y: Rq)
    ensures forall r :: r in Subst(f, x, y) <==> (r in f && r != x) || (r == y && x in f)
    ensures ByExpiry(f) && x.expires == y.expires ==> ByExpiry(Subst(f, x, y))
  {
    var g := Subst(f, x, y);
    forall r ensures r in g <==> (r in f && r != x) || (r == y && x in f) {
      if r in g {
        var k :| 0 <= k < |g| && g[k] == r;
        assert f[k] in f;
      }
      if r in f && r != x {
        var k :| 0 <= k < |f| && f[k] == r;
        assert g[k] == r;
      }
      if r == y && x in f {
        var k :| 0 <= k < |f| && f[k] == x;
        assert g[k] == y;
      }
    }
  }

  lemma AppendIs(f: seq<Rq>, y: Rq)
    ensures forall r :: r in f + [y] <==> r in f || r == y
    ensures ByExpiry(f) && (forall r | r in f :: r.expires <= y.expires) ==> ByExpiry(f + [y])
  {
    if forall r | r in f :: r.expires <= y.expires {
      forall a, b | 0 <= a < b < |f + [y]| && ByExpiry(f) ensures (f + [y])[a].expires <= (f + [y])[b].expires {
        assert b == |f| ==> f[a] in f;
      }
    }
  }

  lemma DueErased(f: seq<Rq>, x: Rq, t: int)
    requires NoDup(f)
    ensures |DueBy(Erase(f, x), t)| == |DueBy(f, t)| - if x in f && x.expires <= t then 1 else 0
  {
    hide Erase;
    EraseIs(f, x);
    assert DueBy(Erase(f, x), t) == DueBy(f, t) - {x};
  }

  lemma DueSubst(f: seq<Rq>, x: Rq, y: Rq, t: int)
    requires x.expires == y.expires && y !in f
    ensures |DueBy(Subst(f, x, y), t)| == |DueBy(f, t)|
  {
    hide Subst;
    SubstIs(f, x, y);
    if x in f && x.expires <= t {
      assert DueBy(Subst(f, x, y), t) == DueBy(f, t) - {x} + {y};
    } else {
      assert DueBy(Subst(f, x, y), t) == DueBy(f, t);
    }
  }

  lemma DueAppended(f: seq<Rq>, y: Rq, t: int)
    requires y.expires > t
    ensures DueBy(f + [y], t) == DueBy(f, t)
  {
  }

  // ---------------------------------------------------------------------------
  // What each operation does to a fifo
  // ---------------------------------------------------------------------------

  /** A fifo in order, with nothing that expires after `latest`. */
  ghost predicate FifoOk(f: seq<Rq>, latest: int) {
    NoDup(f) && ByExpiry(f) && forall r | r in f :: r.expires <= latest
  }

  /** From f to f' nothing that is due by t is added, and what has this id stays due by t. */
  ghost predicate NoWorse(f: seq<Rq>, f': seq<Rq>, id: nat, t: int) {
    && |DueBy(f', t)| <= |DueBy(f, t)|
    && (AllBy(f, id, t) ==> AllBy(f', id, t))
  }

  lemma EraseStep(f: seq<Rq>, x: Rq, latest: int, id: nat, t: int)
    requires FifoOk(f, latest)
    ensures FifoOk(Erase(f, x), latest) && NoWorse(f, Erase(f, x), id, t)
  {
    hide Erase, ByExpiry, NoDup;
    EraseIs(f, x);
    DueErased(f, x, t);
    ErasedOnce(f, x);
  }

  lemma SubstStep(f: seq<Rq>, x: Rq, y: Rq, latest: int, id: nat, t: int)
    requires FifoOk(f, latest) && x.expires == y.expires && y !in f && x.id == y.id
    ensures FifoOk(Subst(f, x, y), latest) && NoWorse(f, Subst(f, x, y), id, t)
  {
    hide Subst, ByExpiry, NoDup;
    SubstIs(f, x, y);
    DueSubst(f, x, y, t);
    SubstNoDup(f, x, y);
  }

  lemma AppendStep(f: seq<Rq>, y: Rq, latest: int, id: nat, t: int)
    requires FifoOk(f, latest) && latest <= y.expires && y !in f && y.expires > t && y.id != id
    ensures FifoOk(f + [y], y.expires) && NoWorse(f, f + [y], id, t)
  {
    hide ByExpiry, NoDup;
    AppendIs(f, y);
    DueAppended(f, y, t);
    AppendNoDup(f, y);
  }

  lemma SameStep(f: seq<Rq>, id: nat, t: int)
    ensures NoWorse(f, f, id, t)
  {
  }

  lemma Twice(f: seq<Rq>, g: seq<Rq>, h: seq<Rq>, id: nat, t: int)
    requires NoWorse(f, g, id, t) && NoWorse(g, h, id, t)
    ensures NoWorse(f, h, id, t)
  {
  }

  // ---------------------------------------------------------------------------
  // Both fifos
  // ---------------------------------------------------------------------------

  ghost function Due(d: Data, t: int): nat {
    |DueBy(d.sync, t)| + |DueBy(d.async, t)|
  }

  ghost predicate Waits(d: Data, id: nat) {
    HasId(d.sync, id) || HasId(d.async, id)
  }

  ghost predicate WaitsBy(d: Data, id: nat, t: int) {
    AllBy(d.sync, id, t) && AllBy(d.async, id, t)
  }

  ghost predicate InOrder(c: Config, d: Data, now: int) {
    FifoOk(d.sync, now + c.syncExpire) && FifoOk(d.async, now + c.asyncExpire)
  }

  ghost predicate Better(d: Data, d': Data, id: nat, t: int) {
    Due(d', t) <= Due(d, t) && (WaitsBy(d, id, t) ==> WaitsBy(d', id, t))
  }

  lemma BothBetter(d: Data, d': Data, id: nat, t: int)
    requires NoWorse(d.sync, d'.sync, id, t) && NoWorse(d.async, d'.async, id, t)
    ensures Better(d, d', id, t)
  {
    hide AllBy, DueBy;
  }

  lemma MoveStep(c: Config, d: Data, x: Rq, now: int, id: nat, t: int)
    requires InOrder(c, d, now)
    ensures InOrder(c, Move(d, x), now) && Better(d, Move(d, x), id, t)
    ensures Due(Move(d, x), t) == Due(d, t) - (if x in d.sync && x.expires <= t then 1 else 0) - (if x in d.async && x.expires <= t then 1 else 0)
    ensures Move(d, x).nbatched == d.nbatched + 1
  {
    hide Erase, NoWorse, Better, DueBy;
    Lists(d, x);
    EraseStep(d.sync, x, now + c.syncExpire, id, t);
    EraseStep(d.async, x, now + c.asyncExpire, id, t);
    FifoDistinct(d.sync, now + c.syncExpire);
    FifoDistinct(d.async, now + c.asyncExpire);
    DueErased(d.sync, x, t);
    DueErased(d.async, x, t);
    BothBetter(d, Move(d, x), id, t);
  }

  lemma FifoDistinct(f: seq<Rq>, latest: int)
    requires FifoOk(f, latest)
    ensures NoDup(f)
  {
  }

  lemma AddSortedStep(c: Config, d: Data, rq: Rq, now: int, id: nat, t: int)
    requires InOrder(c, d, now)
    ensures InOrder(c, AddSorted(d, rq), now) && Better(d, AddSorted(d, rq), id, t)
    ensures NoWorse(d.sync, AddSorted(d, rq).sync, id, t) && NoWorse(d.async, AddSorted(d, rq).async, id, t)
    ensures AddSorted(d, rq).nbatched >= d.nbatched
  {
    hide Erase, NoWorse, Better, Alias;
    AddSortedLists(d, rq);
    AddSortedCount(d, rq);
    var a := Alias(d.sort, rq.sector);
    if a.Some? {
      EraseStep(d.sync, a.value, now + c.syncExpire, id, t);
      EraseStep(d.async, a.value, now + c.asyncExpire, id, t);
    } else {
      SameStep(d.sync, id, t);
      SameStep(d.async, id, t);
    }
    BothBetter(d, AddSorted(d, rq), id, t);
  }

  lemma AddSortedCount(d: Data, rq: Rq)
    ensures AddSorted(d, rq).nbatched >= d.nbatched
  {
    hide Erase, Alias, Insert, Successor, Predecessor;
  }

  lemma Later(c: Config, d: Data, now: int, now': int)
    requires InOrder(c, d, now) && now <= now'
    ensures InOrder(c, d, now')
  {
  }

  lemma AddStep(c: Config, d: Data, now0: int, now: int, rq: Rq, id: nat, t: int)
    requires Valid(d) && (forall r | r in d.sort :: r.id != rq.id) && InOrder(c, d, now0) && now0 <= now
    requires t < now && id != rq.id
    ensures InOrder(c, AddRequest(c, d, now, rq), now) && Better(d, AddRequest(c, d, now, rq), id, t)
    ensures AddRequest(c, d, now, rq).nbatched >= d.nbatched
  {
    hide Sorted, NoDup, AddSorted, NoWorse, Better, FifoOk;
    var expire := if rq.sync then c.syncExpire else c.asyncExpire;
    var rq' := if expire != 0 then rq.(expires := now + expire) else rq;
    var d0 := d.(nrSorted := d.nrSorted + 1);
    AddSortedStep(c, d0, rq', now0, id, t);
    AliasLists(d0, rq');
    var d1 := AddSorted(d0, rq');
    Later(c, d1, now0, now);
    if expire != 0 {
      if rq.sync {
        AppendStep(d1.sync, rq', now + c.syncExpire, id, t);
        Twice(d.sync, d1.sync, d1.sync + [rq'], id, t);
      } else {
        AppendStep(d1.async, rq', now + c.asyncExpire, id, t);
        Twice(d.async, d1.async, d1.async + [rq'], id, t);
      }
    }
    BothBetter(d, AddRequest(c, d, now, rq), id, t);
  }

  lemma FrontStep(c: Config, d: Data, rq: Rq, sector: int, now: int, id: nat, t: int)
    requires Valid(d) && rq in d.sort && rq.(sector := sector) !in d.sort && InOrder(c, d, now)
    ensures InOrder(c, FrontMerged(d, rq, sector), now) && Better(d, FrontMerged(d, rq, sector), id, t)
    ensures FrontMerged(d, rq, sector).nbatched >= d.nbatched
  {
    hide Sorted, NoDup, AddSorted, NoWorse, Better, FifoOk, Del, Subst;
    var rq' := rq.(sector := sector);
    Lists(d, rq);
    DelCount(d, rq);
    SubstStep(d.sync, rq, rq', now + c.syncExpire, id, t);
    SubstStep(d.async, rq, rq', now + c.asyncExpire, id, t);
    var d1 := Del(d, rq);
    var d2 := d1.(sync := Subst(d1.sync, rq, rq'), async := Subst(d1.async, rq, rq'));
    AddSortedStep(c, d2, rq', now, id, t);
    var d3 := AddSorted(d2, rq');
    Twice(d.sync, d2.sync, d3.sync, id, t);
    Twice(d.async, d2.async, d3.async, id, t);
    BothBetter(d, d3, id, t);
  }

  lemma DelCount(d: Data, rq: Rq)
    ensures Del(d, rq).nbatched == d.nbatched
  {
  }

  // ---------------------------------------------------------------------------
  // Merging two requests
  // ---------------------------------------------------------------------------

  /** The list of next after rq has taken its place. */
  lemma TakenOver(f: seq<Rq>, rq: Rq, next: Rq, latest: int, id: nat, t: int)
    requires FifoOk(f, latest) && next.expires < rq.expires && rq.(expires := next.expires) !in f && rq != next
    ensures var rq' := rq.(expires := next.expires);
            var f' := Subst(Erase(f, rq), next, rq');
            && FifoOk(f', latest) && |DueBy(f', t)| <= |DueBy(f, t)|
            && (forall r | r in f' :: (r in f && r != rq && r != next) || (r == rq' && next in f))
  {
    hide Erase, Subst, ByExpiry, NoDup, DueBy;
    var rq' := rq.(expires := next.expires);
    EraseStep(f, rq, latest, id, t);
    EraseIs(f, rq);
    var g := Erase(f, rq);
    SubstIs(g, next, rq');
    DueSubst(g, next, rq', t);
    SubstNoDup(g, next, rq');
  }

  lemma MergeStep(c: Config, d: Data, rq: Rq, next: Rq, now: int, id: nat, t: int)
    requires Valid(d) && rq in d.sort && next in d.sort && rq != next && InOrder(c, d, now)
    ensures InOrder(c, MergedRequests(d, rq, next), now) && Better(d, MergedRequests(d, rq, next), id, t)
    ensures MergedRequests(d, rq, next).nbatched == d.nbatched
  {
    hide Sorted, NoDup, NoWorse, Better, FifoOk, Erase, Subst, DueBy, TakeOver;
    var d1 := TakeOver(d, rq, next);
    TakeOverStep(c, d, rq, next, now, id, t);
    var d2 := MergedRequests(d, rq, next);
    EraseStep(d1.sync, next, now + c.syncExpire, id, t);
    EraseStep(d1.async, next, now + c.asyncExpire, id, t);
    Lists(d1.(sync := Erase(d1.sync, next), async := Erase(d1.async, next)), next);
    DelCount(d1.(sync := Erase(d1.sync, next), async := Erase(d1.async, next)), next);
    BothBetter(d1, d2, id, t);
    BetterTwice(d, d1, d2, id, t);
  }

  lemma BetterTwice(d: Data, d1: Data, d2: Data, id: nat, t: int)
    requires Better(d, d1, id, t) && Better(d1, d2, id, t)
    ensures Better(d, d2, id, t)
  {
  }

  lemma TakeOverStep(c: Config, d: Data, rq: Rq, next: Rq, now: int, id: nat, t: int)
    requires Valid(d) && rq in d.sort && next in d.sort && rq != next && InOrder(c, d, now)
    ensures InOrder(c, TakeOver(d, rq, next), now) && Better(d, TakeOver(d, rq, next), id, t)
    ensures TakeOver(d, rq, next).nbatched == d.nbatched
  {
    hide Sorted, NoDup, NoWorse, FifoOk, Erase, Subst, DueBy;
    if OnFifo(d, rq) && OnFifo(d, next) && next.expires < rq.expires {
      var rq' := rq.(expires := next.expires);
      NewToList(d, rq, rq');
      TakenOver(d.sync, rq, next, now + c.syncExpire, id, t);
      TakenOver(d.async, rq, next, now + c.asyncExpire, id, t);
    }
  }

  /** Exactly the absorbed request leaves the fifos.  If both wait there and it expires earlier, the
      other takes over its expiry and its place, even on the other fifo; else nothing else changes. */
  lemma MergedHandsOn(d: Data, rq: Rq, next: Rq)
    requires Valid(d) && rq in d.sort && next in d.sort && rq != next
    ensures var older := (rq in d.sync || rq in d.async) && (next in d.sync || next in d.async) && next.expires < rq.expires;
            var rq' := rq.(expires := next.expires);
            var d' := MergedRequests(d, rq, next);
            if older then TakenPlace(d.sync, d'.sync, rq, next, rq') && TakenPlace(d.async, d'.async, rq, next, rq')
            else d'.sync == Erase(d.sync, next) && d'.async == Erase(d.async, next)
  {
    hide Sorted, NoDup, Erase, Subst, TakenPlace;
    var d1 := TakeOver(d, rq, next);
    Lists(d1.(sync := Erase(d1.sync, next), async := Erase(d1.async, next)), next);
    if (rq in d.sync || rq in d.async) && (next in d.sync || next in d.async) && next.expires < rq.expires {
      NewToList(d, rq, rq.(expires := next.expires));
      PlaceTaken(d.sync, rq, next);
      PlaceTaken(d.async, rq, next);
    }
  }

  /** rq', which is rq with the expiry of next, stands where next stood once rq has left. */
  ghost predicate TakenPlace(f: seq<Rq>, f': seq<Rq>, rq: Rq, next: Rq, rq': Rq) {
    && (forall r :: r in f' <==> (r in f && r != rq && r != next) || (r == rq' && next in f))
    && (next in f ==> next in Erase(f, rq) && rq' in f' && IndexOf(f', rq') == IndexOf(Erase(f, rq), next))
  }

  lemma PlaceTaken(f: seq<Rq>, rq: Rq, next: Rq)
    requires NoDup(f) && rq != next && rq.(expires := next.expires) !in f
    ensures var rq' := rq.(expires := next.expires);
            TakenPlace(f, Erase(Subst(Erase(f, rq), next, rq'), next), rq, next, rq')
  {
    hide NoDup, Erase, Subst;
    var rq' := rq.(expires := next.expires);
    var g := Erase(f, rq);
    EraseIs(f, rq);
    SubstIs(g, next, rq');
    EraseNothing(Subst(g, next, rq'), next);
    if next in f {
      SubstIndex(g, next, rq');
    }
  }

  // ---------------------------------------------------------------------------
  // Calls
  // ---------------------------------------------------------------------------

  ghost function Batch(c: Config): nat {
    c.fifoBatch + 1
  }

  /** How many calls may pass before the fifos are looked at. */
  ghost function Slack(c: Config, d: Data): nat {
    if c.fifoBatch + 1 > d.nbatched then c.fifoBatch + 1 - d.nbatched else 0
  }

  /** How many calls may pass while a request that is due by t waits. */
  ghost function Wait(c: Config, d: Data, t: int): int {
    (Due(d, t) - 1) * Batch(c) + Slack(c, d)
  }

  lemma DueWhileWaiting(d: Data, id: nat, t: int)
    requires Waits(d, id) && WaitsBy(d, id, t)
    ensures Due(d, t) >= 1
  {
    if HasId(d.sync, id) {
      var r :| r in d.sync && r.id == id;
      assert r in DueBy(d.sync, t);
    } else {
      var r :| r in d.async && r.id == id;
      assert r in DueBy(d.async, t);
    }
  }

  /** When the fifos are looked at, what is served is due by t if anything is. */
  lemma OldestServed(c: Config, d: Data, now0: int, now: int, t: int)
    requires InOrder(c, d, now0) && t < now && Due(d, t) >= 1
    ensures var r := CheckFifo(d, now); r.Some? && r.value.expires <= t && (r.value in d.sync || r.value in d.async)
  {
    HeadDue(d.sync, now0 + c.syncExpire, t);
    HeadDue(d.async, now0 + c.asyncExpire, t);
  }

  lemma HeadDue(f: seq<Rq>, latest: int, t: int)
    requires FifoOk(f, latest)
    ensures |DueBy(f, t)| >= 1 <==> f != [] && f[0].expires <= t
    ensures f != [] ==> f[0] in f
  {
    if r :| r in DueBy(f, t) {
      var k :| 0 <= k < |f| && f[k] == r;
      assert f[0].expires <= f[k].expires;
    }
    if f != [] && f[0].expires <= t {
      assert f[0] in DueBy(f, t);
    }
  }

  lemma CallOrder(c: Config, d: Data, now0: int, now: int, id: nat, t: int)
    requires InOrder(c, d, now0) && now0 <= now
    ensures var d' := DispatchOne(c, d, now).0; InOrder(c, d', now) && Better(d, d', id, t)
  {
    hide Better, FifoOk, DueBy, Move, CheckFifo, Choose, AllBy;
    var due := d.nbatched > c.fifoBatch;
    var d1 := if due then d.(nbatched := 0) else d;
    var expired := if due then CheckFifo(d1, now) else None;
    var rq := if expired.Some? then expired else Choose(c, d1);
    BetterSame(d1, id, t);
    var d' := DispatchOne(c, d, now).0;
    if rq.Some? {
      MoveStep(c, d1, rq.value, now0, id, t);
    }
    Later(c, d', now0, now);
    SameLists(d, d1, d', id, t);
  }

  lemma BetterSame(d: Data, id: nat, t: int)
    ensures Better(d, d, id, t)
  {
  }

  lemma CallStep(c: Config, d: Data, now0: int, now: int, id: nat, t: int)
    requires Valid(d) && InOrder(c, d, now0) && now0 <= now && t < now && Waits(d, id) && WaitsBy(d, id, t)
    ensures Wait(c, DispatchOne(c, d, now).0, t) < Wait(c, d, t)
  {
    hide Valid, Sorted, NoDup, Better, FifoOk, DueBy, Move, CheckFifo, Choose, AllBy, HasId;
    DueWhileWaiting(d, id, t);
    SomethingWaits(d, id);
    UnbatchedKeeps(d);
    var due := d.nbatched > c.fifoBatch;
    var d1 := if due then d.(nbatched := 0) else d;
    ValidSorted(d1);
    ChooseFinds(c, d1);
    if due {
      OldestServed(c, d1, now0, now, t);
    }
    var rq := if due then CheckFifo(d1, now) else Choose(c, d1);
    MoveStep(c, d1, rq.value, now0, id, t);
    WaitLess(Due(d, t), Due(Move(d1, rq.value), t), Batch(c), due);
  }

  lemma SomethingWaits(d: Data, id: nat)
    requires Valid(d) && Waits(d, id)
    ensures d.sort != []
  {
    hide Sorted, NoDup;
  }

  lemma SameLists(d: Data, d1: Data, d': Data, id: nat, t: int)
    requires d1.sync == d.sync && d1.async == d.async && Better(d1, d', id, t)
    ensures Better(d, d', id, t) && Due(d1, t) == Due(d, t)
  {
  }

  lemma WaitLess(due: int, due': int, batch: nat, checked: bool)
    requires due' <= due && (checked ==> due' < due)
    ensures (due' - 1) * batch <= (due - 1) * batch
    ensures checked ==> (due' - 1) * batch + batch <= (due - 1) * batch
  {
    Grows(due' - 1, due - 1, batch);
    if checked {
      Grows(due', due - 1, batch);
      assert (due' - 1) * batch + batch == due' * batch;
    }
  }

  lemma Grows(a: int, b: int, k: nat)
    requires a <= b
    ensures a * k <= b * k
  {
  }

  // ---------------------------------------------------------------------------
  // Runs with a clock
  // ---------------------------------------------------------------------------

  ghost predicate Ticks(a: Action, now: int, now': int) {
    now <= now' && (a.Add? || a.Call? ==> a.now == now')
  }

  /** A run beside the times of its states; the clock never goes back. */
  ghost predicate IsTimedRun(c: Config, ds: seq<Data>, acts: seq<Action>, now: seq<int>) {
    && IsRun(c, ds, acts) && |now| == |ds|
    && forall i, j | 0 <= i && j == i + 1 < |now| :: Ticks(acts[i], now[i], now[j])
  }

  lemma StepOrder(c: Config, d: Data, a: Action, now: int, now': int, id: nat, t: int)
    requires Valid(d) && Enabled(d, a) && InOrder(c, d, now) && Ticks(a, now, now')
    requires a.Add? ==> t < now' && id != a.rq.id
    ensures InOrder(c, Apply(c, d, a), now') && Better(d, Apply(c, d, a), id, t)
    ensures !a.Call? ==> Apply(c, d, a).nbatched >= d.nbatched
  {
    hide Valid, InOrder, Better, AddRequest, FrontMerged, MergedRequests, DispatchOne;
    match a
    case Add(_, rq) => AddStep(c, d, now, now', rq, id, t);
    case Front(rq, sector) =>
      FrontStep(c, d, rq, sector, now, id, t);
      Later(c, FrontMerged(d, rq, sector), now, now');
    case Merge(rq, next) =>
      MergeStep(c, d, rq, next, now, id, t);
      Later(c, MergedRequests(d, rq, next), now, now');
    case Call(_) => CallOrder(c, d, now, now', id, t);
  }

  /** Both fifos are in the order of their expiry times in every state of a run. */
  lemma {:induction false} FifosInOrder(c: Config, ds: seq<Data>, acts: seq<Action>, now: seq<int>, i: nat)
    requires IsTimedRun(c, ds, acts, now) && i <= |acts|
    ensures InOrder(c, ds[i], now[i])
  {
    hide InOrder, Valid, Enabled, Apply;
    if i == 0 {
      NothingWaits(c, now[0]);
    } else {
      FifosInOrder(c, ds, acts, now, i - 1);
      RunKeeps(c, ds, acts, i - 1);
      assert Ticks(acts[i - 1], now[i - 1], now[i]);
      var id := if acts[i - 1].Add? then acts[i - 1].rq.id + 1 else 0;
      StepOrder(c, ds[i - 1], acts[i - 1], now[i - 1], now[i], id, now[i] - 1);
    }
  }

  lemma NothingWaits(c: Config, now: int)
    ensures InOrder(c, Init(), now)
  {
  }

  ghost function Calls(acts: seq<Action>, i: nat, j: nat): nat
    requires i <= j <= |acts|
    decreases j - i
  {
    if i == j then 0 else Calls(acts, i, j - 1) + if acts[j - 1].Call? then 1 else 0
  }

  lemma OtherId(d: Data, a: Action, id: nat)
    requires Valid(d) && Enabled(d, a) && Waits(d, id) && a.Add?
    ensures a.rq.id != id
  {
    hide Sorted, NoDup;
  }

  lemma StepWait(c: Config, d: Data, a: Action, now: int, now': int, id: nat, t: int)
    requires Valid(d) && Enabled(d, a) && InOrder(c, d, now) && Ticks(a, now, now')
    requires t < now && Waits(d, id) && WaitsBy(d, id, t)
    ensures WaitsBy(Apply(c, d, a), id, t)
    ensures Wait(c, Apply(c, d, a), t) <= Wait(c, d, t) - if a.Call? then 1 else 0
  {
    hide Valid, Enabled, InOrder, Waits, WaitsBy, AddRequest, FrontMerged, MergedRequests, DispatchOne, Due;
    if a.Add? {
      OtherId(d, a, id);
    }
    StepOrder(c, d, a, now, now', id, t);
    if a.Call? {
      CallStep(c, d, now, now', id, t);
    } else {
      Grows(Due(Apply(c, d, a), t) - 1, Due(d, t) - 1, Batch(c));
    }
  }

  lemma {:induction false} WaitRunsOut(c: Config, ds: seq<Data>, acts: seq<Action>, now: seq<int>, i: nat, j: nat, id: nat, t: int)
    requires IsTimedRun(c, ds, acts, now) && i <= j <= |acts|
    requires t < now[i] && WaitsBy(ds[i], id, t) && forall k | i <= k <= j :: Waits(ds[k], id)
    ensures now[i] <= now[j] && WaitsBy(ds[j], id, t)
    ensures Wait(c, ds[j], t) + Calls(acts, i, j) <= Wait(c, ds[i], t)
    decreases j - i
  {
    hide Valid, Enabled, Apply, InOrder, Waits, WaitsBy, Wait;
    if i < j {
      var k := j - 1;
      WaitRunsOut(c, ds, acts, now, i, k, id, t);
      RunKeeps(c, ds, acts, k);
      FifosInOrder(c, ds, acts, now, k);
      assert Ticks(acts[k], now[k], now[j]);
      StepWait(c, ds[k], acts[k], now[k], now[j], id, t);
    }
  }

  /** A request that has expired waits for at most p * (fifo_batch + 1) calls, where p
      counts the requests, itself included, that expire no later on either fifo. */
  lemma OverdueAreServed(c: Config, ds: seq<Data>, acts: seq<Action>, now: seq<int>, i: nat, j: nat, id: nat, t: int)
    requires IsTimedRun(c, ds, acts, now) && i <= j <= |acts|
    requires t < now[i] && WaitsBy(ds[i], id, t) && forall k | i <= k <= j :: Waits(ds[k], id)
    ensures Calls(acts, i, j) <= Due(ds[i], t) * Batch(c)
  {
    hide IsTimedRun, Waits, WaitsBy, Due;
    TimedLength(c, ds, acts, now);
    WaitRunsOut(c, ds, acts, now, i, j, id, t);
    DueWhileWaiting(ds[j], id, t);
    Grows(0, Due(ds[j], t) - 1, Batch(c));
    assert (Due(ds[i], t) - 1) * Batch(c) + Batch(c) == Due(ds[i], t) * Batch(c);
  }

  lemma TimedLength(c: Config, ds: seq<Data>, acts: seq<Action>, now: seq<int>)
    requires IsTimedRun(c, ds, acts, now)
    ensures |ds| == |acts| + 1 == |now|
  {
  }

  // ---------------------------------------------------------------------------
  // Every pending request is on a fifo
  // ---------------------------------------------------------------------------

  ghost predicate OnOne(d: Data, r: Rq) {
    r in d.sync <==> r !in d.async
  }

  ghost predicate AllOnOne(d: Data) {
    forall r | r in d.sort :: OnOne(d, r)
  }

  ghost predicate OthersOnOne(d: Data, x: Rq) {
    forall r | r in d.sort && r != x :: OnOne(d, r)
  }

  lemma AscendingOnce(t: seq<Rq>)
    requires Ascending(t)
    ensures NoDup(t)
  {
  }

  /** What Move leaves, list by list. */
  lemma MoveMembers(d: Data, x: Rq)
    requires Ascending(d.sort) && NoDup(d.sync) && NoDup(d.async)
    ensures forall r :: r in Move(d, x).sort <==> r in d.sort && r != x
    ensures forall r :: r in Move(d, x).sync <==> r in d.sync && r != x
    ensures forall r :: r in Move(d, x).async <==> r in d.async && r != x
  {
    hide NoDup, Erase, Ascending;
    AscendingOnce(d.sort);
    EraseIs(d.sort, x);
    EraseIs(d.sync, x);
    EraseIs(d.async, x);
  }

  /** Linking a request makes it pending and moves its alias away, from everywhere. */
  lemma AddSortedMembers(d: Data, rq: Rq)
    requires Ascending(d.sort) && NoDup(d.sync) && NoDup(d.async)
    ensures var d', a := AddSorted(d, rq), Alias(d.sort, rq.sector);
            && (forall r :: r in d'.sort <==> r == rq || (r in d.sort && a != Some(r)))
            && (forall r :: r in d'.sync <==> r in d.sync && a != Some(r))
            && (forall r :: r in d'.async <==> r in d.async && a != Some(r))
  {
    hide NoDup, Ascending, Move, Insert, Alias, Successor, Predecessor;
    var a := Alias(d.sort, rq.sector);
    if a.Some? {
      MoveMembers(d, a.value);
      InsertHas(Move(d, a.value).sort, rq);
    } else {
      InsertHas(d.sort, rq);
    }
  }

  lemma AddOnOne(c: Config, d: Data, now: int, rq: Rq)
    requires Valid(d) && AllOnOne(d) && (forall r | r in d.sort :: r.id != rq.id) && c.syncExpire != 0 && c.asyncExpire != 0
    ensures AllOnOne(AddRequest(c, d, now, rq))
  {
    hide Ascending, CacheOk, NoDup, AddSorted, Alias;
    var rq' := rq.(expires := now + if rq.sync then c.syncExpire else c.asyncExpire);
    AddSortedMembers(d.(nrSorted := d.nrSorted + 1), rq');
  }

  lemma FrontOnOne(d: Data, rq: Rq, sector: int)
    requires Valid(d) && AllOnOne(d) && rq in d.sort && rq.(sector := sector) !in d.sort
    ensures AllOnOne(FrontMerged(d, rq, sector))
  {
    hide Ascending, CacheOk, NoDup, AddSorted, Alias, Subst, Erase, Successor, Predecessor;
    var rq' := rq.(sector := sector);
    var d1 := Del(d, rq);
    AscendingOnce(d.sort);
    EraseIs(d.sort, rq);
    DelSorted(d, rq);
    SubstIs(d.sync, rq, rq');
    SubstIs(d.async, rq, rq');
    SubstNoDup(d.sync, rq, rq');
    SubstNoDup(d.async, rq, rq');
    AddSortedMembers(d1.(sync := Subst(d1.sync, rq, rq'), async := Subst(d1.async, rq, rq')), rq');
    AliasFound(Erase(d.sort, rq), sector);
  }

  lemma TakeOverOnOne(d: Data, rq: Rq, next: Rq)
    requires Valid(d) && AllOnOne(d) && rq in d.sort && next in d.sort && rq != next
    ensures OthersOnOne(TakeOver(d, rq, next), next)
  {
    hide Ascending, CacheOk, NoDup, Subst, Erase;
    if next.expires < rq.expires {
      var rq' := rq.(expires := next.expires);
      EraseIs(d.sync, rq);
      EraseIs(d.async, rq);
      SubstIs(d.sort, rq, rq');
      SubstIs(Erase(d.sync, rq), next, rq');
      SubstIs(Erase(d.async, rq), next, rq');
      NewToList(d, rq, rq');
    }
  }

  lemma RemoveOnOne(d: Data, x: Rq)
    requires Valid(d) && OthersOnOne(d, x)
    ensures AllOnOne(Remove(d, x))
  {
    hide Ascending, CacheOk, NoDup, Erase, Successor, Predecessor;
    AscendingOnce(d.sort);
    EraseIs(d.sort, x);
    EraseIs(d.sync, x);
    EraseIs(d.async, x);
  }

  lemma CallOnOne(c: Config, d: Data, now: int)
    requires Valid(d) && AllOnOne(d)
    ensures AllOnOne(DispatchOne(c, d, now).0)
  {
    hide Ascending, CacheOk, NoDup, Move, CheckFifo, Choose;
    var due := d.nbatched > c.fifoBatch;
    var d1 := if due then d.(nbatched := 0) else d;
    var expired := if due then CheckFifo(d1, now) else None;
    var rq := if expired.Some? then expired else Choose(c, d1);
    if rq.Some? {
      MoveMembers(d1, rq.value);
    }
  }

  lemma SameElsewhere(d: Data, rq: Rq, next: Rq)
    requires AllOnOne(Remove(TakeOver(d, rq, next), next))
    ensures AllOnOne(MergedRequests(d, rq, next))
  {
    hide TakeOver, Remove;
  }

  lemma StepOnOne(c: Config, d: Data, a: Action)
    requires Valid(d) && Enabled(d, a) && AllOnOne(d) && c.syncExpire != 0 && c.asyncExpire != 0
    ensures AllOnOne(Apply(c, d, a))
  {
    hide Valid, AllOnOne, OthersOnOne, AddRequest, FrontMerged, DispatchOne, TakeOver, Remove;
    match a
    case Add(now, rq) => AddOnOne(c, d, now, rq);
    case Front(rq, sector) => FrontOnOne(d, rq, sector);
    case Merge(rq, next) =>
      TakeOverOnOne(d, rq, next);
      TakeOverKeeps(d, rq, next);
      RemoveOnOne(TakeOver(d, rq, next), next);
      SameElsewhere(d, rq, next);
    case Call(now) => CallOnOne(c, d, now);
  }

  /** With both expiry times set, every pending request is on exactly one fifo in every state of a
      run, once, and the fifos hold nothing else. */
  lemma {:induction false} PendingOnOneFifo(c: Config, ds: seq<Data>, acts: seq<Action>, i: nat)
    requires IsRun(c, ds, acts) && i <= |acts| && c.syncExpire != 0 && c.asyncExpire != 0
    ensures AllOnOne(ds[i]) && FifosOk(ds[i])
  {
    hide Sorted, FifosOk, AllOnOne, Enabled, Apply;
    RunKeeps(c, ds, acts, i);
    if i == 0 {
      NonePending();
    } else {
      PendingOnOneFifo(c, ds, acts, i - 1);
      RunKeeps(c, ds, acts, i - 1);
      StepOnOne(c, ds[i - 1], acts[i - 1]);
    }
  }

  lemma NonePending()
    ensures AllOnOne(Init())
  {
  }

  lemma PendingWaits(d: Data, id: nat)
    requires AllOnOne(d) && HasId(d.sort, id)
    ensures Waits(d, id)
  {
    var r :| r in d.sort && r.id == id;
    assert OnOne(d, r);
  }

  /** With both expiry times set the bound covers every pending request. */
  lemma PendingAreServed(c: Config, ds: seq<Data>, acts: seq<Action>, now: seq<int>, i: nat, j: nat, id: nat, t: int)
    requires IsTimedRun(c, ds, acts, now) && i <= j <= |acts| && c.syncExpire != 0 && c.asyncExpire != 0
    requires t < now[i] && AllBy(ds[i].sort, id, t) && forall k | i <= k <= j :: HasId(ds[k].sort, id)
    ensures Calls(acts, i, j) <= Due(ds[i], t) * Batch(c)
  {
    hide HasId, Waits, AllOnOne, Calls, Due, NoDup, Enabled, Apply;
    forall k | i <= k <= j ensures Waits(ds[k], id) {
      PendingOnOneFifo(c, ds, acts, k);
      PendingWaits(ds[k], id);
    }
    PendingOnOneFifo(c, ds, acts, i);
    OverdueAreServed(c, ds, acts, now, i, j, id, t);
  }
}
