/** struct blk_queue_tag with its two arrays. */
module TagsCode {
  import opened Common
  import opened Tags

  class TagMap {
    var bits: array<bool>            // tag_map
    var index: array<Option<nat>>    // tag_index
    var maxDepth: nat
    var busy: seq<nat>
    var tags: map<nat, Tagged>
    var head: seq<nat>

    ghost predicate Sound()
      reads this, bits, index
    {
      bits.Length == index.Length && Valid(View())
    }

    function View(): State
      reads this, bits, index
    {
      State(bits[..], index[..], maxDepth, busy, tags, head)
    }

    constructor (depth: nat)
      ensures Sound() && View() == Init(depth) && fresh(bits) && fresh(index)
    {
      var b := new bool[depth](_ => false);
      var x := new Option<nat>[depth](_ => None);
      bits, index, maxDepth, busy, tags, head := b, x, depth, [], map[], [];
      new;
      InitKeeps(depth);
      assert bits[..] == NoBits(depth) && index[..] == NoRequests(depth);
    }

    /** find_first_zero_bit */
    method FindFirstZero(n: nat) returns (t: nat)
      requires n <= bits.Length
      ensures t == FirstZero(bits[..], n, 0)
    {
      t := 0;
      while t < n && bits[t]
        invariant t <= n && FirstZero(bits[..], n, t) == FirstZero(bits[..], n, 0)
      {
        t := t + 1;
      }
    }

    /** blk_queue_start_tag: true is the source's refusal. */
    method Start(r: nat, sync: bool, inFlightAsync: nat) returns (refused: bool)
      requires Sound() && r !in tags
      modifies `busy, `tags, bits, index
      ensures Sound()
      ensures var t := PickTag(old(View()), sync, inFlightAsync);
              && (refused <==> t.None?)
              && View() == if refused then old(View()) else StartTag(old(View()), r, sync, t.value)
    {
      hide Valid, FirstZero;
      PickFree(View(), sync, inFlightAsync);
      ValidSizes(View());
      var depth := maxDepth;
      if !sync && depth > 1 {
        depth := depth - 2;
        if depth == 0 {
          depth := 1;
        }
        if inFlightAsync > depth {
          return true;
        }
      }
      var tag := FindFirstZero(depth);
      if tag >= depth {
        return true;
      }
      StartKeeps(View(), r, sync, tag);
      bits[tag] := true;
      tags := tags[r := Tagged(tag, sync)];
      index[tag] := Some(r);
      busy := [r] + busy;
      return false;
    }

    /** blk_queue_end_tag: its range test and both of its complaints are unreachable. */
    method End(r: nat)
      requires Sound() && r in tags
      modifies `busy, `tags, bits, index
      ensures Sound() && View() == EndTag(old(View()), r)
    {
      hide Valid, Without;
      EndKeeps(View(), r);
      var tag := tags[r].tag;
      TagInRange(View(), r);
      busy := Without(busy, r);
      tags := tags - {r};
      index[tag] := None;
      bits[tag] := false;
    }

    /** blk_requeue_request outside a barrier sequence */
    method PutBack(r: nat)
      requires Sound() && r in tags
      modifies `busy, `tags, `head, bits, index
      ensures Sound() && View() == Requeue(old(View()), r)
    {
      hide Valid, EndTag;
      EndKeeps(View(), r);
      HeadKeeps(EndTag(View(), r), [r] + head);
      End(r);
      head := [r] + head;
    }

    /** blk_queue_invalidate_tags: the busy list is walked while its requests leave it; every tag
        is free at the end, and the requests are back in the order in which they were started. */
    method Invalidate()
      requires Sound()
      modifies `busy, `tags, `head, bits, index
      ensures Sound() && tags == map[] && busy == []
      ensures forall t | 0 <= t < bits.Length :: !bits[t]
      ensures head == Reverse(old(busy)) + old(head)
    {
      hide Valid, Partway, Requeue;
      ghost var head0 := head;
      var list := busy;
      PartwayStart(View());
      var i := 0;
      while i < |list|
        invariant i <= |list| && Sound() && Partway(View(), list, i, head0)
      {
        PartwayNext(View(), list, i, head0);
        PutBack(list[i]);
        i := i + 1;
      }
      PartwayEnd(View(), list, head0);
    }

    /** init_tag_map and the two memcpy calls of blk_queue_resize_tags */
    method CopyArrays(depth: nat) returns (newIndex: array<Option<nat>>, newBits: array<bool>)
      requires bits.Length == index.Length <= depth
      ensures fresh(newIndex) && fresh(newBits)
      ensures newIndex[..] == index[..] + NoRequests(depth)[index.Length..]
      ensures newBits[..] == bits[..] + NoBits(depth)[index.Length..]
    {
      newIndex := new Option<nat>[depth](_ => None);
      newBits := new bool[depth](_ => false);
      var i := 0;
      while i < index.Length
        invariant i <= index.Length
        invariant forall j | 0 <= j < depth :: newIndex[j] == if j < i then index[j] else None
        invariant forall j | 0 <= j < depth :: newBits[j] == if j < i then bits[j] else false
      {
        newIndex[i] := index[i];
        newBits[i] := bits[i];
        i := i + 1;
      }
    }

    /** blk_queue_resize_tags of an unshared map; the precondition is what keeps the copies
        within the new arrays. */
    method Resize(newDepth: nat, nrRequests: nat)
      requires Sound()
      requires newDepth <= index.Length || Clamped(newDepth, nrRequests) >= index.Length
      modifies this
      ensures Sound() && tags == old(tags) && busy == old(busy)
      ensures Some(View()) == Tags.Resize(old(View()), newDepth, nrRequests)
    {
      hide Valid, NoRequests, NoBits;
      ResizeKeeps(View(), newDepth, nrRequests);
      if newDepth <= index.Length {
        maxDepth := newDepth;
        return;
      }
      var depth := newDepth;
      if depth > nrRequests * 2 {
        depth := nrRequests * 2;
      }
      var newIndex, newBits := CopyArrays(depth);
      index, bits, maxDepth := newIndex, newBits, depth;
    }
  }

  /** The first i requests of the list have been put back. */
  ghost predicate Partway(s: State, list: seq<nat>, i: nat, head0: seq<nat>) {
    i <= |list| && s.busy == list[i..] && s.head == Reverse(list[..i]) + head0
  }

  lemma PartwayStart(s: State)
    ensures Partway(s, s.busy, 0, s.head)
  {
    assert s.busy[..0] == [];
    assert Reverse([]) + s.head == s.head;
  }

  lemma PartwayNext(s: State, list: seq<nat>, i: nat, head0: seq<nat>)
    requires Valid(s) && i < |list| && Partway(s, list, i, head0)
    ensures list[i] in s.tags && Partway(Requeue(s, list[i]), list, i + 1, head0)
  {
    hide Valid, Reverse, EndTag, Without;
    ValidBusy(s);
    assert s.busy[0] == list[i];
    EndKeeps(s, list[i]);
    WithoutFirst(s.busy);
    ReverseMore(list, i);
    EndHead(s, list[i]);
  }

  lemma EndHead(s: State, r: nat)
    requires r in s.tags
    ensures EndTag(s, r).head == s.head
  {
  }

  lemma PartwayEnd(s: State, list: seq<nat>, head0: seq<nat>)
    requires Valid(s) && Partway(s, list, |list|, head0)
    ensures s.tags == map[] && s.busy == [] && s.head == Reverse(list) + head0
    ensures forall t | 0 <= t < |s.bits| :: !s.bits[t]
  {
    hide Valid, Reverse;
    assert list[..|list|] == list;
    NothingTagged(s);
  }

  lemma ValidSizes(s: State)
    requires Valid(s)
    ensures |s.bits| == |s.index| && s.maxDepth <= |s.index|
  {
  }

  lemma TagInRange(s: State, r: nat)
    requires Valid(s) && r in s.tags
    ensures var t := s.tags[r].tag; t < |s.bits| == |s.index| && s.index[t] == Some(r) && s.bits[t]
  {
    assert TagOk(s.index, s.tags, r);
    assert SlotOk(s.bits, s.index, s.tags, s.tags[r].tag);
  }
}
