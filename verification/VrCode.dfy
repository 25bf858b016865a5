/** struct vr_data as its functions update it. */
module VrCode {
  import opened Common
  import opened RequestTree
  import opened Vr
  import opened VrOrder

  class VrData {
    const config: Config
    var sort: seq<Rq>
    var sync: seq<Rq>
    var async: seq<Rq>
    var next: Option<Rq>
    var prev: Option<Rq>
    var nbatched: nat
    var last: int
    var forward: bool
    var nrSorted: int
    var dispatch: seq<Rq>

    constructor (config: Config)
      ensures this.config == config && View() == Init()
    {
      this.config := config;
      sort, sync, async, next, prev := [], [], [], None, None;
      nbatched, last, forward, nrSorted, dispatch := 0, 0, true, 0, [];
    }

    function View(): Data
      reads this
    {
      Data(sort, sync, async, next, prev, nbatched, last, forward, nrSorted, dispatch)
    }

    /** vr_del_rq_rb, with the cache right or, during a move, beside the request; its BUG_ONs do not
        fire. */
    method Delete(rq: Rq)
      requires (Sorted(View()) || Beside(View(), rq)) && rq in sort
      modifies `sort, `next, `prev
      ensures View() == Del(old(View()), rq)
    {
      hide Sorted, Beside, Successor, Predecessor, Erase;
      DelNoBug(View(), rq);
      ghost var d := View();
      if next == Some(rq) {
        next := Successor(sort, rq);
      } else if prev == Some(rq) {
        prev := Predecessor(sort, rq);
      }
      assert !Bug(View());
      sort := Erase(sort, rq);
    }

    /** vr_remove_request */
    method RemoveRequest(rq: Rq)
      requires (Sorted(View()) || Beside(View(), rq)) && rq in sort
      modifies `sort, `next, `prev, `sync, `async
      ensures View() == Remove(old(View()), rq)
    {
      hide Sorted, Beside, Del, Erase;
      OtherLists(View(), Erase(sync, rq), Erase(async, rq), rq);
      sync, async := Erase(sync, rq), Erase(async, rq);
      Delete(rq);
    }

    /** vr_move_request; the cached neighbours of what it moves become those of the head, and
        neither its own BUG_ON nor those of the deletion fire. */
    method MoveToDispatch(rq: Rq)
      requires Sorted(View()) && rq in sort
      modifies this
      ensures View() == Move(old(View()), rq) && Sorted(View())
    {
      hide Sorted, Beside, Remove, Successor, Predecessor;
      MoveSorted(View(), rq);
      PointAt(rq);
      BesideNoBug(View(), rq);
      assert !Bug(View());
      RemoveRequest(rq);
      dispatch := dispatch + [rq];
      nbatched, nrSorted := nbatched + 1, nrSorted - 1;
    }

    /** The head goes to rq. */
    method PointAt(rq: Rq)
      requires Sorted(View())
      modifies `forward, `last, `next, `prev
      ensures View() == old(View()).(forward := rq.sector > old(last), last := rq.sector,
                                     next := Successor(sort, rq), prev := Predecessor(sort, rq))
      ensures Beside(View(), rq)
    {
      hide Successor, Predecessor, CacheOk, Ascending;
      forward := rq.sector > last;
      last := rq.sector;
      next := Successor(sort, rq);
      prev := Predecessor(sort, rq);
    }

    /** The insertion of vr_add_rq_rb, which must find no alias, and the cache update; the BUG_ONs
        at its end do not fire. */
    method LinkInTree(rq: Rq)
      requires Sorted(View()) && Alias(sort, rq.sector).None?
      modifies `sort, `next, `prev
      ensures View() == Link(old(View()), rq) && Sorted(View())
    {
      hide Insert, Sorted, Alias;
      LinkSorted(View(), rq);
      ghost var d := View();
      sort := Insert(sort, rq);
      if rq.sector >= last {
        if next.None? || next.value.sector > rq.sector {
          next := Some(rq);
        }
      } else {
        if prev.None? || prev.value.sector < rq.sector {
          prev := Some(rq);
        }
      }
      NoBug(View());
      assert !Bug(View());
    }

    /** vr_add_rq_rb: once the alias is moved, the second insertion finds none. */
    method AddToTree(rq: Rq)
      requires Sorted(View())
      modifies this
      ensures View() == AddSorted(old(View()), rq) && Sorted(View())
    {
      hide Sorted, Move, Link, Insert, Erase;
      AddSortedKeeps(View(), rq);
      var alias := Alias(sort, rq.sector);
      if alias.Some? {
        MoveSorted(View(), alias.value);
        MoveToDispatch(alias.value);
      }
      assert Alias(sort, rq.sector).None?;
      LinkInTree(rq);
    }

    /** vr_add_request, with the count that elv_insert keeps */
    method Add(now: int, rq: Rq)
      requires Valid(View()) && forall r | r in sort :: r.id != rq.id
      modifies this
      ensures View() == AddRequest(config, old(View()), now, rq) && Valid(View())
    {
      hide Valid, Sorted, AddSorted;
      AddKeeps(config, View(), now, rq);
      SortedCounted(View(), nrSorted + 1);
      var expire := if rq.sync then config.syncExpire else config.asyncExpire;
      var rq' := if expire != 0 then rq.(expires := now + expire) else rq;
      nrSorted := nrSorted + 1;
      AddToTree(rq');
      if expire != 0 {
        if rq.sync {
          sync := sync + [rq'];
        } else {
          async := async + [rq'];
        }
      }
    }

    /** vr_merged_request after a front merge */
    method FrontMerge(rq: Rq, sector: int)
      requires Valid(View()) && rq in sort && rq.(sector := sector) !in sort
      modifies this
      ensures View() == FrontMerged(old(View()), rq, sector) && Valid(View())
    {
      hide Valid, Sorted, Del, AddSorted, Subst;
      FrontMergedKeeps(View(), rq, sector);
      ValidSorted(View());
      DelSorted(View(), rq);
      Delete(rq);
      var rq' := rq.(sector := sector);
      SortedElse(View(), View().(sync := Subst(sync, rq, rq'), async := Subst(async, rq, rq')));
      sync, async := Subst(sync, rq, rq'), Subst(async, rq, rq');
      AddToTree(rq');
    }

    /** vr_merged_requests up to the removal */
    method TakePlace(rq: Rq, toGo: Rq)
      modifies `sort, `next, `prev, `sync, `async
      ensures View() == TakeOver(old(View()), rq, toGo)
    {
      hide Erase, Subst, Renamed, OnFifo;
      if OnFifo(View(), rq) && OnFifo(View(), toGo) && toGo.expires < rq.expires {
        var rq' := rq.(expires := toGo.expires);
        next, prev := Renamed(next, rq, rq'), Renamed(prev, rq, rq');
        sync, async := Subst(Erase(sync, rq), toGo, rq'), Subst(Erase(async, rq), toGo, rq');
        sort := Subst(sort, rq, rq');
      }
    }

    /** vr_merged_requests, with the count that elv_merge_requests keeps */
    method MergeRequests(rq: Rq, toGo: Rq)
      requires Valid(View()) && rq in sort && toGo in sort && rq != toGo
      modifies this
      ensures View() == MergedRequests(old(View()), rq, toGo) && Valid(View())
    {
      hide Valid, Sorted, Remove, TakeOver;
      MergedKeeps(View(), rq, toGo);
      TakeOverKeeps(View(), rq, toGo);
      TakePlace(rq, toGo);
      ValidSorted(View());
      RemoveRequest(toGo);
      nrSorted := nrSorted - 1;
    }

    /** vr_dispatch_requests; the BUG_ON of vr_choose_request does not fire. */
    method Dispatch(now: int) returns (dispatched: bool)
      requires Valid(View())
      modifies this
      ensures (View(), dispatched) == DispatchOne(config, old(View()), now)
      ensures Valid(View()) && (dispatched <==> old(sort) != [])
      ensures dispatched && old(nbatched <= config.fifoBatch || !SomeExpired(View(), now)) ==>
                |dispatch| > |old(dispatch)|
                && IsNeighbour(config, old(sort), old(last), old(forward), dispatch[|old(dispatch)|])
    {
      hide Valid, Sorted, Move, CheckFifo, Choose, SomeExpired, IsNeighbour;
      DispatchKeeps(config, View(), now);
      if sort != [] && (nbatched <= config.fifoBatch || !SomeExpired(View(), now)) {
        NeighbourSent(config, View(), now);
      }
      UnbatchedKeeps(View());
      var rq: Option<Rq> := None;
      if nbatched > config.fifoBatch {
        nbatched := 0;
        ExpiredIsSorted(View(), now);
        rq := CheckFifo(View(), now);
      }
      ValidSorted(View());
      if rq.None? {
        NoBug(View());
        assert !Bug(View());
        ChooseFinds(config, View());
        rq := Choose(config, View());
        if rq.None? {
          return false;
        }
      }
      MoveToDispatch(rq.value);
      return true;
    }

    /** elv_drain_elevator over this scheduler: everything it held is dispatched, once each, and
        nr_sorted ends at zero.  `clock` stands for the time of each call. */
    method Drain(clock: nat -> int)
      requires Valid(View())
      modifies this
      ensures Valid(View()) && sort == [] && nrSorted == 0
      ensures old(dispatch) <= dispatch && multiset(dispatch) == multiset(old(sort)) + multiset(old(dispatch))
    {
      hide Valid, DispatchOne, Requests;
      ghost var d0 := View();
      var n := 0;
      var more := true;
      while more
        invariant Valid(View()) && Requests(View()) == Requests(d0) && d0.dispatch <= dispatch
        invariant !more ==> sort == []
        decreases |sort|, more
      {
        DispatchKeeps(config, View(), clock(n));
        DispatchConserves(config, View(), clock(n));
        more := Dispatch(clock(n));
        n := n + 1;
      }
      Counted(View());
      AllDispatched(d0, View());
    }
  }

  lemma OtherLists(d: Data, sync: seq<Rq>, async: seq<Rq>, rq: Rq)
    ensures Sorted(d) ==> Sorted(d.(sync := sync, async := async))
    ensures Beside(d, rq) ==> Beside(d.(sync := sync, async := async), rq)
  {
  }

  lemma SortedCounted(d: Data, n: int)
    requires Valid(d)
    ensures Sorted(d) && Sorted(d.(nrSorted := n))
  {
  }

  lemma AllDispatched(d0: Data, d: Data)
    requires Requests(d) == Requests(d0) && d.sort == []
    ensures multiset(d.dispatch) == multiset(d0.sort) + multiset(d0.dispatch)
  {
  }
}
