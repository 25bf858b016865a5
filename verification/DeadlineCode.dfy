/** struct deadline_data as its functions update it. */
module DeadlineCode {
  import opened Common
  import opened RequestTree
  import opened Deadline

  class DeadlineData {
    const config: Config
    var read: Lane
    var write: Lane
    var batching: nat
    var starved: nat
    var now: int
    var dispatch: seq<Rq>

    constructor (config: Config)
      ensures this.config == config && Inv(config, View()) && View().read.fifo == [] && View().write.fifo == []
    {
      this.config := config;
      read, write := Lane([], [], None), Lane([], [], None);
      batching, starved, now, dispatch := 0, 0, 0, [];
    }

    function View(): Data
      reads this
    {
      Data(read, write, batching, starved, now, dispatch)
    }

    /** deadline_move_request */
    method Move(rq: Rq)
      modifies `read, `write, `dispatch
      ensures View() == MoveRequest(old(View()), rq)
    {
      hide Remove;
      var latter := Successor((if rq.write then write else read).sort, rq);
      read := read.(next := None);
      write := write.(next := None);
      if rq.write {
        write := Remove(write.(next := latter), rq);
      } else {
        read := Remove(read.(next := latter), rq);
      }
      dispatch := dispatch + [rq];
    }

    /** deadline_add_rq_rb: aliases go to the dispatch queue until the insertion succeeds. */
    method AddToTree(rq: Rq)
      requires Ascending(LaneOf(View(), rq.write).sort)
      requires forall r | r in LaneOf(View(), rq.write).sort :: r.write == rq.write
      modifies `read, `write, `dispatch
      ensures View() == AddSorted(old(View()), rq)
    {
      hide Ascending, Insert, MoveRequest, Alias;
      ghost var d0 := View();
      ghost var first := Alias(LaneOf(d0, rq.write).sort, rq.sector);
      var alias := Alias((if rq.write then write else read).sort, rq.sector);
      while alias.Some?
        invariant alias == Alias(LaneOf(View(), rq.write).sort, rq.sector)
        invariant alias.Some? ==> View() == d0 && alias == first
        invariant alias.None? ==> View() == if first.Some? then MoveRequest(d0, first.value) else d0
        decreases if alias.Some? then 1 else 0
      {
        MovedAliasGone(d0, alias.value);
        Move(alias.value);
        alias := Alias((if rq.write then write else read).sort, rq.sector);
      }
      if rq.write {
        write := write.(sort := Insert(write.sort, rq));
      } else {
        read := read.(sort := Insert(read.sort, rq));
      }
    }

    /** deadline_add_request */
    method Add(rq: Rq)
      requires Inv(config, View())
      requires forall r | r in LaneOf(View(), rq.write).fifo :: r.id != rq.id
      modifies `read, `write, `dispatch
      ensures View() == AddRequest(config, old(View()), rq)
      ensures Inv(config, View())
    {
      hide AddSorted, Inv;
      AddKeeps(config, View(), rq);
      var rq' := rq.(expires := now + if rq.write then config.writeExpire else config.readExpire);
      SortedLane(config, View(), rq.write);
      AddToTree(rq');
      if rq.write {
        write := write.(fifo := write.fifo + [rq']);
      } else {
        read := read.(fifo := read.fifo + [rq']);
      }
    }

    /** dispatch_find_request and the end of deadline_dispatch_requests */
    method BeginBatch(isWrite: bool)
      requires LaneOf(View(), isWrite).fifo != []
      modifies `read, `write, `dispatch, `batching
      ensures (View(), true) == StartBatch(old(View()), isWrite)
    {
      hide MoveRequest;
      var l := if isWrite then write else read;
      var rq: Rq;
      if l.fifo[0].expires < now || l.next.None? {
        rq := l.fifo[0];
      } else {
        rq := l.next.value;
      }
      batching := 0;
      batching := batching + 1;
      Move(rq);
    }

    /** deadline_dispatch_requests: zero only when nothing is pending. */
    method Dispatch() returns (dispatched: bool)
      requires Inv(config, View())
      modifies `read, `write, `dispatch, `batching, `starved
      ensures (View(), dispatched) == DispatchOne(config, old(View()))
      ensures Inv(config, View())
      ensures dispatched <==> old(read.fifo != [] || write.fifo != [])
    {
      hide Inv, MoveRequest, StartBatch;
      DispatchKeeps(config, View());
      var hasReads, hasWrites := read.fifo != [], write.fifo != [];
      var rq := if write.next.Some? then write.next else read.next;
      if rq.Some? && batching < config.fifoBatch {
        batching := batching + 1;
        Move(rq.value);
        return true;
      }
      if hasReads {
        if hasWrites {
          if starved >= config.writesStarved {
            starved := 0;
            BeginBatch(true);
            return true;
          }
          starved := starved + 1;
        }
        BeginBatch(false);
        return true;
      }
      if hasWrites {
        starved := 0;
        BeginBatch(true);
        return true;
      }
      return false;
    }
  }

  /** Once a request is moved, nothing else starts at its sector. */
  lemma MovedAliasGone(d: Data, a: Rq)
    requires Ascending(LaneOf(d, a.write).sort) && a in LaneOf(d, a.write).sort
    ensures Alias(LaneOf(MoveRequest(d, a), a.write).sort, a.sector).None?
  {
    hide Ascending, Erase, Alias;
    var sort := LaneOf(d, a.write).sort;
    EraseKeeps(sort, a);
    EraseMembers(sort, a);
    AliasGone(sort, Erase(sort, a), a);
  }
}
