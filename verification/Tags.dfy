/** The tag allocator of a tagged request queue. */
module Tags {
  import opened Common

  /** A tagged request: its tag, and whether it is sync. */
  datatype Tagged = Tagged(tag: nat, sync: bool)

  /** tag_map, tag_index, max_depth, and tag_busy_list with the most recently started request
      first; `head` is the dispatch queue.  The two arrays have real_max_depth entries. */
  datatype State = State(
    bits: seq<bool>,
    index: seq<Option<nat>>,
    maxDepth: nat,
    busy: seq<nat>,
    tags: map<nat, Tagged>,
    head: seq<nat>
  )

  /** What kzalloc leaves in tag_index. */
  function NoRequests(n: nat): (s: seq<Option<nat>>)
    ensures |s| == n && forall i | 0 <= i < n :: s[i] == None
  {
    seq(n, _ => None)
  }

  /** What kzalloc leaves in tag_map. */
  function NoBits(n: nat): (s: seq<bool>)
    ensures |s| == n && forall i | 0 <= i < n :: !s[i]
  {
    seq(n, _ => false)
  }

  function Init(depth: nat): State {
    State(NoBits(depth), NoRequests(depth), depth, [], map[], [])
  }

  // ---------------------------------------------------------------------------
  // blk_queue_start_tag
  // ---------------------------------------------------------------------------

  /** The tags a request may take: async requests leave two for sync ones, if there are more
      than one. */
  function Usable(maxDepth: nat, sync: bool): nat {
    if !sync && maxDepth > 1 then (if maxDepth == 2 then 1 else maxDepth - 2) else maxDepth
  }

  /** find_first_zero_bit */
  function FirstZero(bits: seq<bool>, n: nat, i: nat): (t: nat)
    requires i <= n
    ensures i <= t <= n
    ensures t < n && t < |bits| ==> !bits[t]
    ensures forall j | i <= j < t && j < |bits| :: bits[j]
    decreases n - i
  {
    if i == n || (i < |bits| && !bits[i]) then i else FirstZero(bits, n, i + 1)
  }

  /** The tag a request gets, unless too many async requests are in flight or none is free. */
  function PickTag(s: State, sync: bool, inFlightAsync: nat): Option<nat> {
    var n := Usable(s.maxDepth, sync);
    if !sync && s.maxDepth > 1 && inFlightAsync > n then None
    else
      var t := FirstZero(s.bits, n, 0);
      if t >= n then None else Some(t)
  }

  /** blk_queue_start_tag, when a tag is found */
  function StartTag(s: State, r: nat, sync: bool, t: nat): State
    requires t < |s.bits| == |s.index|
  {
    s.(bits := s.bits[t := true], index := s.index[t := Some(r)], tags := s.tags[r := Tagged(t, sync)], busy := [r] + s.busy)
  }

  // ---------------------------------------------------------------------------
  // blk_queue_end_tag and blk_queue_invalidate_tags
  // ---------------------------------------------------------------------------

  function Without(s: seq<nat>, x: nat): seq<nat> {
    if s == [] then [] else if s[0] == x then s[1..] else [s[0]] + Without(s[1..], x)
  }

  /** blk_queue_end_tag */
  function EndTag(s: State, r: nat): State
    requires r in s.tags
  {
    var t := s.tags[r].tag;
    if t < |s.bits| && t < |s.index| then
      s.(bits := s.bits[t := false], index := s.index[t := None], tags := s.tags - {r}, busy := Without(s.busy, r))
    else s
  }

  /** blk_requeue_request outside a barrier sequence: to the front of the dispatch queue. */
  function Requeue(s: State, r: nat): State
    requires r in s.tags
  {
    EndTag(s, r).(head := [r] + s.head)
  }

  function Reverse(s: seq<nat>): seq<nat> {
    if s == [] then [] else Reverse(s[1..]) + [s[0]]
  }

  // ---------------------------------------------------------------------------
  // blk_queue_resize_tags
  // ---------------------------------------------------------------------------

  /** init_tag_map limits the depth to twice the queue's requests. */
  function Clamped(depth: nat, nrRequests: nat): nat {
    if depth > nrRequests * 2 then nrRequests * 2 else depth
  }

  /** memcpy of a whole array into the start of another; none if it does not fit. */
  function CopyOver<T>(src: seq<T>, dst: seq<T>): Option<seq<T>> {
    if |src| <= |dst| then Some(src + dst[|src|..]) else None
  }

  /** blk_queue_resize_tags of an unshared map; none stands for a copy out of bounds. */
  function Resize(s: State, newDepth: nat, nrRequests: nat): Option<State> {
    if newDepth <= |s.index| then Some(s.(maxDepth := newDepth))
    else
      var depth := Clamped(newDepth, nrRequests);
      var index := CopyOver(s.index, NoRequests(depth));
      var bits := CopyOver(s.bits, NoBits(depth));
      if index.None? || bits.None? then None
      else Some(s.(bits := bits.value, index := index.value, maxDepth := depth))
  }

  // ---------------------------------------------------------------------------
  // The invariant
  // ---------------------------------------------------------------------------

  /** A tag's bit is set exactly when its slot holds the request that carries the tag. */
  ghost predicate SlotOk(bits: seq<bool>, index: seq<Option<nat>>, tags: map<nat, Tagged>, t: nat)
    requires |bits| == |index| && t < |bits|
  {
    && (bits[t] <==> index[t].Some?)
    && (index[t].Some? ==> index[t].value in tags && tags[index[t].value].tag == t)
  }

  ghost predicate TagOk(index: seq<Option<nat>>, tags: map<nat, Tagged>, r: nat)
    requires r in tags
  {
    tags[r].tag < |index| && index[tags[r].tag] == Some(r)
  }

  ghost predicate Valid(s: State) {
    && |s.bits| == |s.index|
    && s.maxDepth <= |s.index|
    && (forall t | 0 <= t < |s.bits| :: SlotOk(s.bits, s.index, s.tags, t))
    && (forall r | r in s.tags :: TagOk(s.index, s.tags, r))
    && NoDup(s.busy)
    && (forall r :: r in s.busy <==> r in s.tags)
  }

  /** The bit of a tag is set exactly when some request carries it. */
  lemma BitMeansCarried(s: State, t: nat)
    requires Valid(s) && t < |s.bits|
    ensures s.bits[t] <==> exists r :: r in s.tags && s.tags[r].tag == t
    ensures forall r, r' | r in s.tags && r' in s.tags && s.tags[r].tag == s.tags[r'].tag :: r == r'
  {
    hide NoDup;
    assert SlotOk(s.bits, s.index, s.tags, t);
    forall r | r in s.tags ensures s.tags[r].tag < |s.index| && s.index[s.tags[r].tag] == Some(r) {
      assert TagOk(s.index, s.tags, r);
    }
    if s.bits[t] {
      assert s.index[t].value in s.tags;
    }
  }

  ghost predicate AllTaken(s: State, n: nat) {
    n <= |s.bits| && forall t | 0 <= t < n :: s.bits[t]
  }

  /** The tag picked is the lowest free one.  A sync request gets one unless every tag is taken.  An
      async one leaves two tags, if there are that many, and is refused if those it may use are taken
      or it would be one too many in flight. */
  lemma PickFree(s: State, sync: bool, inFlightAsync: nat)
    requires Valid(s)
    ensures var t := PickTag(s, sync, inFlightAsync);
            t.Some? ==> t.value < |s.bits| && !s.bits[t.value] && AllTaken(s, t.value) && t.value < s.maxDepth
    ensures sync ==> (PickTag(s, sync, inFlightAsync).None? <==> AllTaken(s, s.maxDepth))
    ensures !sync && s.maxDepth <= 1 ==> (PickTag(s, sync, inFlightAsync).None? <==> AllTaken(s, s.maxDepth))
    ensures !sync && s.maxDepth > 1 ==>
              var share := if s.maxDepth > 2 then s.maxDepth - 2 else 1;
              && (PickTag(s, sync, inFlightAsync).None? <==> inFlightAsync > share || AllTaken(s, share))
              && (PickTag(s, sync, inFlightAsync).Some? ==> PickTag(s, sync, inFlightAsync).value < share)
  {
    hide NoDup, SlotOk, TagOk;
  }

  lemma StartKeeps(s: State, r: nat, sync: bool, t: nat)
    requires Valid(s) && r !in s.tags && t < |s.bits| && !s.bits[t]
    ensures Valid(StartTag(s, r, sync, t))
  {
    var s' := StartTag(s, r, sync, t);
    assert SlotOk(s.bits, s.index, s.tags, t);
    forall u | 0 <= u < |s'.bits| ensures SlotOk(s'.bits, s'.index, s'.tags, u) {
      assert SlotOk(s.bits, s.index, s.tags, u);
    }
    forall x | x in s'.tags ensures TagOk(s'.index, s'.tags, x) {
      if x != r {
        assert TagOk(s.index, s.tags, x);
      }
    }
    assert r !in s.busy;
    forall i, j | 0 <= i < j < |s'.busy| ensures s'.busy[i] != s'.busy[j] {
      assert i == 0 ==> s.busy[j-1] in s.busy;
    }
  }

  lemma {:induction false} WithoutHas(s: seq<nat>, x: nat)
    requires NoDup(s)
    ensures NoDup(Without(s, x))
    ensures forall y :: y in Without(s, x) <==> y in s && y != x
    decreases |s|
  {
    if s != [] {
      assert s == [s[0]] + s[1..];
      assert s[0] !in s[1..];
      WithoutHas(s[1..], x);
      if s[0] != x {
        var w := Without(s[1..], x);
        forall i, j | 0 <= i < j < |[s[0]] + w| ensures ([s[0]] + w)[i] != ([s[0]] + w)[j] {
          assert i == 0 ==> w[j-1] in w;
        }
      }
    }
  }

  lemma EndSlots(s: State, r: nat, u: nat)
    requires |s.bits| == |s.index| && r in s.tags && TagOk(s.index, s.tags, r) && u < |s.bits| && SlotOk(s.bits, s.index, s.tags, u)
    ensures var t := s.tags[r].tag; SlotOk(s.bits[t := false], s.index[t := None], s.tags - {r}, u)
  {
  }

  lemma EndTags(s: State, r: nat, x: nat)
    requires r in s.tags && x in s.tags && x != r && TagOk(s.index, s.tags, r) && TagOk(s.index, s.tags, x)
    ensures TagOk(s.index[s.tags[r].tag := None], s.tags - {r}, x)
  {
  }

  lemma EndKeeps(s: State, r: nat)
    requires Valid(s) && r in s.tags
    ensures Valid(EndTag(s, r)) && EndTag(s, r).tags == s.tags - {r} && EndTag(s, r).busy == Without(s.busy, r)
  {
    assert TagOk(s.index, s.tags, r);
    WithoutHas(s.busy, r);
    var t, s' := s.tags[r].tag, EndTag(s, r);
    assert s' == s.(bits := s.bits[t := false], index := s.index[t := None], tags := s.tags - {r}, busy := Without(s.busy, r));
    forall u | 0 <= u < |s'.bits| ensures SlotOk(s'.bits, s'.index, s'.tags, u) {
      assert SlotOk(s.bits, s.index, s.tags, u);
      EndSlots(s, r, u);
    }
    forall x | x in s'.tags ensures TagOk(s'.index, s'.tags, x) {
      assert TagOk(s.index, s.tags, x);
      EndTags(s, r, x);
    }
    hide NoDup, SlotOk, TagOk, Without, EndTag;
  }

  // ---------------------------------------------------------------------------
  // Resizing
  // ---------------------------------------------------------------------------

  /** A resize copies within bounds exactly when it only lowers max_depth or the clamped depth is
      not below the old real depth; then every tag in flight stays where it is. */
  lemma ResizeKeeps(s: State, newDepth: nat, nrRequests: nat)
    requires Valid(s)
    ensures Resize(s, newDepth, nrRequests).Some? <==> newDepth <= |s.index| || Clamped(newDepth, nrRequests) >= |s.index|
    ensures Resize(s, newDepth, nrRequests).Some? ==>
              var s' := Resize(s, newDepth, nrRequests).value;
              && Valid(s')
              && s'.tags == s.tags && s'.busy == s.busy && s.index <= s'.index && s.bits <= s'.bits
              && (forall t | |s.bits| <= t < |s'.bits| :: !s'.bits[t])
              && (if newDepth <= |s.index| then s'.maxDepth == newDepth && |s'.bits| == |s.bits|
                  else s'.maxDepth == |s'.bits| == Clamped(newDepth, nrRequests))
  {
    hide NoDup;
    if newDepth > |s.index| && Clamped(newDepth, nrRequests) >= |s.index| {
      var s' := Resize(s, newDepth, nrRequests).value;
      forall u | 0 <= u < |s'.bits| ensures SlotOk(s'.bits, s'.index, s'.tags, u) {
        if u < |s.bits| {
          assert SlotOk(s.bits, s.index, s.tags, u);
        }
      }
      forall x | x in s'.tags ensures TagOk(s'.index, s'.tags, x) {
        assert TagOk(s.index, s.tags, x);
      }
    }
  }

  /** A queue with few requests: growing its tags clamps them below what they were. */
  lemma ResizeCanOverflow()
    ensures Valid(Init(256)) && Resize(Init(256), 512, 64).None?
  {
    var s := Init(256);
    forall t | 0 <= t < |s.bits| ensures SlotOk(s.bits, s.index, s.tags, t) {
    }
  }

  // ---------------------------------------------------------------------------
  // Reserved tags
  // ---------------------------------------------------------------------------

  ghost function Async(s: State): set<nat> {
    set r | r in s.tags && !s.tags[r].sync
  }

  /** Every async request holds one of the tags below n. */
  ghost predicate AsyncLow(s: State, n: nat) {
    forall r | r in s.tags && !s.tags[r].sync :: s.tags[r].tag < n
  }

  ghost function Below(n: nat): set<nat> {
    if n == 0 then {} else Below(n - 1) + {n - 1}
  }

  lemma {:induction false} BelowIs(n: nat)
    ensures |Below(n)| == n && forall t: nat :: t in Below(n) <==> t < n
  {
    if n > 0 {
      BelowIs(n - 1);
    }
  }

  /** As many requests as tags, when no two share one. */
  lemma {:induction false} Injective(rs: set<nat>, tags: map<nat, Tagged>)
    requires forall r | r in rs :: r in tags
    requires forall r, r' | r in rs && r' in rs && tags[r].tag == tags[r'].tag :: r == r'
    ensures |set r | r in rs :: tags[r].tag| == |rs|
    decreases |rs|
  {
    if rs != {} {
      var x :| x in rs;
      var rest := rs - {x};
      Injective(rest, tags);
      assert (set r | r in rs :: tags[r].tag) == (set r | r in rest :: tags[r].tag) + {tags[x].tag};
    }
  }

  /** Async requests never hold more than the tags they may use. */
  lemma AsyncBounded(s: State, n: nat)
    requires Valid(s) && AsyncLow(s, n)
    ensures |Async(s)| <= n
  {
    var rs := Async(s);
    forall r, r' | r in rs && r' in rs && s.tags[r].tag == s.tags[r'].tag ensures r == r' {
      assert TagOk(s.index, s.tags, r) && TagOk(s.index, s.tags, r');
    }
    Injective(rs, s.tags);
    BelowIs(n);
    SubsetSize(set r | r in rs :: s.tags[r].tag, Below(n));
  }

  // ---------------------------------------------------------------------------
  // Invalidation
  // ---------------------------------------------------------------------------

  lemma ValidBusy(s: State)
    requires Valid(s)
    ensures NoDup(s.busy) && forall r :: r in s.busy <==> r in s.tags
  {
  }

  lemma HeadKeeps(s: State, head: seq<nat>)
    requires Valid(s)
    ensures Valid(s.(head := head))
  {
    forall t | 0 <= t < |s.bits| ensures SlotOk(s.bits, s.index, s.tags, t) {
    }
  }

  lemma WithoutFirst(s: seq<nat>)
    requires s != []
    ensures Without(s, s[0]) == s[1..]
  {
  }

  lemma {:induction false} ReverseMore(s: seq<nat>, i: nat)
    requires i < |s|
    ensures Reverse(s[..i+1]) == [s[i]] + Reverse(s[..i])
    decreases i
  {
    if i == 0 {
      assert s[..1] == [s[0]] && s[..0] == [] && [s[0]][1..] == [];
    } else {
      ReverseMore(s[1..], i - 1);
      assert s[..i+1][1..] == s[1..][..i] && s[..i][1..] == s[1..][..i-1];
      assert s[1..][i-1] == s[i];
    }
  }

  lemma NothingTagged(s: State)
    requires Valid(s) && s.busy == []
    ensures s.tags == map[] && forall t | 0 <= t < |s.bits| :: !s.bits[t]
  {
    assert forall r :: r !in s.tags;
    forall t | 0 <= t < |s.bits| ensures !s.bits[t] {
      assert SlotOk(s.bits, s.index, s.tags, t);
    }
  }

  // ---------------------------------------------------------------------------
  // Runs
  // ---------------------------------------------------------------------------

  datatype Action =
    | Start(r: nat, sync: bool, inFlightAsync: nat)
    | Finish(r: nat)
    | PutBack(r: nat)
    | ChangeDepth(newDepth: nat, nrRequests: nat)

  predicate Enabled(s: State, a: Action) {
    match a
    case Start(r, _, _) => r !in s.tags
    case Finish(r) => r in s.tags
    case PutBack(r) => r in s.tags
    case ChangeDepth(newDepth, nrRequests) => newDepth <= |s.index| || Clamped(newDepth, nrRequests) >= |s.index|
  }

  function Apply(s: State, a: Action): State
    requires Enabled(s, a)
  {
    match a
    case Start(r, sync, inFlightAsync) =>
      var t := PickTag(s, sync, inFlightAsync);
      if t.Some? && t.value < |s.bits| == |s.index| then StartTag(s, r, sync, t.value) else s
    case Finish(r) => EndTag(s, r)
    case PutBack(r) => Requeue(s, r)
    case ChangeDepth(newDepth, nrRequests) =>
      var s' := Resize(s, newDepth, nrRequests);
      if s'.Some? then s'.value else s
  }

  lemma StepKeeps(s: State, a: Action)
    requires Valid(s) && Enabled(s, a)
    ensures Valid(Apply(s, a))
  {
    hide Valid, StartTag, EndTag, Resize, PickTag;
    match a
    case Start(r, sync, inFlightAsync) =>
      PickFree(s, sync, inFlightAsync);
      var t := PickTag(s, sync, inFlightAsync);
      if t.Some? && t.value < |s.bits| == |s.index| {
        StartKeeps(s, r, sync, t.value);
      }
    case Finish(r) => EndKeeps(s, r);
    case PutBack(r) =>
      EndKeeps(s, r);
      HeadKeeps(EndTag(s, r), [r] + s.head);
    case ChangeDepth(newDepth, nrRequests) => ResizeKeeps(s, newDepth, nrRequests);
  }

  ghost predicate IsRun(depth: nat, ss: seq<State>, acts: seq<Action>) {
    && |ss| == |acts| + 1
    && ss[0] == Init(depth)
    && forall i | 0 <= i < |acts| :: Enabled(ss[i], acts[i]) && ss[i + 1] == Apply(ss[i], acts[i])
  }

  lemma InitKeeps(depth: nat)
    ensures Valid(Init(depth))
  {
    var s := Init(depth);
    forall t | 0 <= t < |s.bits| ensures SlotOk(s.bits, s.index, s.tags, t) {
    }
  }

  /** In every state of every run a tag's bit is set exactly when tag_index holds the request that
      carries the tag. */
  lemma {:induction false} TagsAgree(depth: nat, ss: seq<State>, acts: seq<Action>, i: nat)
    requires IsRun(depth, ss, acts) && i <= |acts|
    ensures Valid(ss[i])
  {
    hide Valid, Apply, Enabled, Init;
    if i == 0 {
      InitKeeps(depth);
    } else {
      TagsAgree(depth, ss, acts, i - 1);
      StepKeeps(ss[i - 1], acts[i - 1]);
    }
  }

  ghost predicate NoResize(acts: seq<Action>) {
    forall i | 0 <= i < |acts| :: !acts[i].ChangeDepth?
  }

  lemma LowStep(s: State, a: Action, depth: nat)
    requires Valid(s) && Enabled(s, a) && !a.ChangeDepth? && s.maxDepth == depth && AsyncLow(s, Usable(depth, false))
    ensures Apply(s, a).maxDepth == depth && AsyncLow(Apply(s, a), Usable(depth, false))
  {
    match a
    case Start(r, sync, inFlightAsync) => PickFree(s, sync, inFlightAsync);
    case _ =>
  }

  lemma {:induction false} LowRun(depth: nat, ss: seq<State>, acts: seq<Action>, i: nat)
    requires IsRun(depth, ss, acts) && NoResize(acts) && i <= |acts|
    ensures ss[i].maxDepth == depth && AsyncLow(ss[i], Usable(depth, false))
  {
    hide Valid, Apply, Enabled, AsyncLow, Usable;
    if i == 0 {
      NoneLow(depth, Usable(depth, false));
    } else {
      LowRun(depth, ss, acts, i - 1);
      TagsAgree(depth, ss, acts, i - 1);
      LowStep(ss[i - 1], acts[i - 1], depth);
    }
  }

  lemma NoneLow(depth: nat, n: nat)
    ensures AsyncLow(Init(depth), n)
  {
  }

  /** Without resizes and with at least three tags, async requests leave two to sync ones. */
  lemma SyncTagsReserved(depth: nat, ss: seq<State>, acts: seq<Action>, i: nat)
    requires IsRun(depth, ss, acts) && NoResize(acts) && i <= |acts| && depth >= 3
    ensures |Async(ss[i])| <= depth - 2
  {
    hide Valid, AsyncLow;
    TagsAgree(depth, ss, acts, i);
    LowRun(depth, ss, acts, i);
    AsyncBounded(ss[i], Usable(depth, false));
  }

  /** The requests in flight after some actions, in the order in which they were started. */
  ghost function StartOrder(ss: seq<State>, acts: seq<Action>, i: nat): seq<nat>
    requires i <= |acts| < |ss|
  {
    if i == 0 then []
    else
      var before := StartOrder(ss, acts, i - 1);
      match acts[i - 1]
      case Start(r, _, _) => if r in ss[i].tags then before + [r] else before
      case Finish(r) => Without(before, r)
      case PutBack(r) => Without(before, r)
      case ChangeDepth(_, _) => before
  }

  lemma {:induction false} ReverseWithout(s: seq<nat>, x: nat)
    requires NoDup(s)
    ensures Reverse(Without(s, x)) == Without(Reverse(s), x)
    decreases |s|
  {
    if s != [] {
      assert s[0] !in s[1..] by { assert s == [s[0]] + s[1..]; }
      ReverseWithout(s[1..], x);
      ReverseHas(s[1..]);
      WithoutLast(Reverse(s[1..]), s[0], x);
      if x !in s[1..] {
        WithoutNone(Reverse(s[1..]), x);
      }
      if s[0] != x {
        assert ([s[0]] + Without(s[1..], x))[1..] == Without(s[1..], x);
      }
    }
  }

  lemma {:induction false} ReverseHas(s: seq<nat>)
    ensures forall x :: x in Reverse(s) <==> x in s
    decreases |s|
  {
    if s != [] {
      ReverseHas(s[1..]);
      assert s == [s[0]] + s[1..];
    }
  }

  lemma {:induction false} WithoutLast(s: seq<nat>, y: nat, x: nat)
    ensures Without(s + [y], x) == if x in s then Without(s, x) + [y] else if x == y then s else s + [y]
    decreases |s|
  {
    if s == [] {
      assert [y][1..] == [];
    } else {
      assert (s + [y])[1..] == s[1..] + [y];
      WithoutLast(s[1..], y, x);
      assert s == [s[0]] + s[1..];
    }
  }

  lemma {:induction false} WithoutNone(s: seq<nat>, x: nat)
    requires x !in s
    ensures Without(s, x) == s
    decreases |s|
  {
    if s != [] {
      WithoutNone(s[1..], x);
    }
  }

  lemma ReverseFirst(r: nat, s: seq<nat>)
    ensures Reverse([r] + s) == Reverse(s) + [r]
  {
    assert ([r] + s)[1..] == s;
  }

  lemma OrderStep(s: State, a: Action)
    requires Valid(s) && Enabled(s, a)
    ensures var s' := Apply(s, a);
            match a
            case Start(r, _, _) => Reverse(s'.busy) == if r in s'.tags then Reverse(s.busy) + [r] else Reverse(s.busy)
            case Finish(r) => Reverse(s'.busy) == Without(Reverse(s.busy), r)
            case PutBack(r) => Reverse(s'.busy) == Without(Reverse(s.busy), r)
            case ChangeDepth(_, _) => s'.busy == s.busy
  {
    hide NoDup, SlotOk, TagOk, PickTag;
    match a
    case Start(r, sync, inFlightAsync) => ReverseFirst(r, s.busy);
    case Finish(r) => EndKeeps(s, r); ReverseWithout(s.busy, r);
    case PutBack(r) => EndKeeps(s, r); ReverseWithout(s.busy, r);
    case ChangeDepth(newDepth, nrRequests) => ResizeKeeps(s, newDepth, nrRequests);
  }

  /** Invalidation puts back the requests in flight in the order in which they were started: it
      prepends Reverse(busy) to the dispatch queue, which is that order in every run. */
  lemma {:induction false} BusyIsStartOrder(depth: nat, ss: seq<State>, acts: seq<Action>, i: nat)
    requires IsRun(depth, ss, acts) && i <= |acts|
    ensures Reverse(ss[i].busy) == StartOrder(ss, acts, i)
  {
    if i > 0 {
      BusyIsStartOrder(depth, ss, acts, i - 1);
      TagsAgree(depth, ss, acts, i - 1);
      hide Valid, Reverse, Without, Apply;
      assert ss[i] == Apply(ss[i - 1], acts[i - 1]);
      OrderStep(ss[i - 1], acts[i - 1]);
    }
  }
}
