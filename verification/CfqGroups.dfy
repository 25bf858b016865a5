/** The tree of CFQ groups ordered by virtual disk time, and the fairness it gives. */
module CfqGroups {
  import opened Common
  import opened RequestTree

  const IDLE_DELAY: nat := 200        // CFQ_IDLE_DELAY at HZ = 1000
  const SERVICE_SCALE: nat := 4096    // 1 << CFQ_SERVICE_SHIFT
  const DEFAULT_WEIGHT: nat := 500    // BLKIO_WEIGHT_DEFAULT

  /** grp_service_tree with the vdisktime and weight of the groups.  `left` caches the first
      node or is empty. */
  datatype GroupTree = GroupTree(
    nodes: seq<nat>,
    left: Option<nat>,
    active: Option<nat>,
    minVt: int,
    vt: map<nat, int>,
    weight: map<nat, nat>
  )

  function Vt(vt: map<nat, int>, g: nat): int {
    if g in vt then vt[g] else 0
  }

  function Weight(t: GroupTree, g: nat): (w: nat)
    ensures w > 0
  {
    if g in t.weight && t.weight[g] > 0 then t.weight[g] else DEFAULT_WEIGHT
  }

  /** cfq_scale_slice */
  function ScaleSlice(delta: nat, weight: nat): (d: nat)
    requires weight > 0
    ensures d * weight <= delta * SERVICE_SCALE * DEFAULT_WEIGHT < (d + 1) * weight
  {
    var n := delta * SERVICE_SCALE * DEFAULT_WEIGHT;
    var d := n / weight;
    assert n == d * weight + n % weight;
    d
  }

  /** The walk of __cfq_group_service_tree_add: behind every node that is not later. */
  function Place(nodes: seq<nat>, vt: map<nat, int>, v: int): (i: nat)
    ensures i <= |nodes|
    ensures forall j | 0 <= j < i :: Vt(vt, nodes[j]) <= v
    ensures i < |nodes| ==> v < Vt(vt, nodes[i])
  {
    if nodes == [] || v < Vt(vt, nodes[0]) then 0 else 1 + Place(nodes[1..], vt, v)
  }

  /** __cfq_group_service_tree_add */
  function Link(t: GroupTree, g: nat): GroupTree {
    var i := Place(t.nodes, t.vt, Vt(t.vt, g));
    t.(nodes := t.nodes[..i] + [g] + t.nodes[i..], left := if i == 0 then Some(g) else t.left)
  }

  /** cfq_rb_erase */
  function Unlink(t: GroupTree, g: nat): GroupTree {
    t.(nodes := Erase(t.nodes, g), left := if t.left == Some(g) then None else t.left)
  }

  /** cfq_group_service_tree_add of a group that is not on the tree. */
  function AddGroup(t: GroupTree, g: nat): GroupTree {
    var v := if t.nodes != [] then Vt(t.vt, t.nodes[|t.nodes| - 1]) + IDLE_DELAY else t.minVt;
    Link(t.(vt := t.vt[g := v]), g)
  }

  /** cfq_group_service_tree_del of a group whose last queue leaves. */
  function DelGroup(t: GroupTree, g: nat): GroupTree {
    Unlink(t.(active := if t.active == Some(g) then None else t.active), g)
  }

  /** The charge of cfq_group_served. */
  function Serve(t: GroupTree, g: nat, charge: nat): GroupTree {
    var t1 := Unlink(t, g);
    Link(t1.(vt := t1.vt[g := Vt(t1.vt, g) + ScaleSlice(charge, Weight(t, g))]), g)
  }

  function Min(a: int, b: int): int {
    if b - a < 0 then b else a
  }

  function Max(a: int, b: int): int {
    if b - a > 0 then b else a
  }

  /** update_min_vdisktime */
  function UpdateMin(t: GroupTree): GroupTree {
    var v := if t.active.Some? then Vt(t.vt, t.active.value) else t.minVt;
    var v' := if t.left.Some? then Min(v, Vt(t.vt, t.left.value)) else v;
    t.(minVt := Max(t.minVt, v'))
  }

  /** cfq_get_next_cfqg */
  function NextGroup(t: GroupTree): (GroupTree, Option<nat>) {
    if t.nodes == [] then (t, None)
    else
      var first := if t.left.Some? then t.left.value else t.nodes[0];
      (UpdateMin(t.(left := Some(first), active := Some(first))), Some(first))
  }

  // ---------------------------------------------------------------------------
  // The invariant
  // ---------------------------------------------------------------------------

  ghost predicate ByTime(nodes: seq<nat>, vt: map<nat, int>) {
    forall i, j | 0 <= i < j < |nodes| :: Vt(vt, nodes[i]) <= Vt(vt, nodes[j])
  }

  ghost predicate LeftOk<T>(nodes: seq<T>, left: Option<T>) {
    left.Some? ==> nodes != [] && nodes[0] == left.value
  }

  ghost predicate AboveMin(nodes: seq<nat>, vt: map<nat, int>, min: int) {
    forall g | g in nodes :: min <= Vt(vt, g)
  }

  /** min_vdisktime never exceeds the vdisktime of a queued group. */
  ghost predicate TreeInv(t: GroupTree) {
    && NoDup(t.nodes)
    && ByTime(t.nodes, t.vt)
    && LeftOk(t.nodes, t.left)
    && AboveMin(t.nodes, t.vt, t.minVt)
  }

  lemma EraseOnce<T>(s: seq<T>, x: T)
    requires NoDup(s)
    ensures NoDup(Erase(s, x))
    ensures forall y :: y in Erase(s, x) <==> y in s && y != x
  {
    if x in s {
      var i, s' := IndexOf(s, x), Erase(s, x);
      WithoutOnce(s, i);
    }
  }

  lemma WithoutOnce<T>(s: seq<T>, i: nat)
    requires NoDup(s) && i < |s|
    ensures NoDup(s[..i] + s[i+1..])
    ensures forall y :: y in s[..i] + s[i+1..] <==> y in s && y != s[i]
  {
    var s' := s[..i] + s[i+1..];
    forall a, b | 0 <= a < b < |s'| ensures s'[a] != s'[b] {
      var a', b' := if a < i then a else a + 1, if b < i then b else b + 1;
      assert s'[a] == s[a'] && s'[b] == s[b'];
    }
    forall y | y in s && y != s[i] ensures y in s' {
      var j :| 0 <= j < |s| && s[j] == y;
      assert s'[if j < i then j else j - 1] == y;
    }
    forall y | y in s' ensures y in s && y != s[i] {
      var k :| 0 <= k < |s'| && s'[k] == y;
      assert s[if k < i then k else k + 1] == y;
    }
  }

  lemma InsertOnce<T>(s: seq<T>, i: nat, x: T)
    requires NoDup(s) && i <= |s| && x !in s
    ensures NoDup(s[..i] + [x] + s[i..])
    ensures forall y :: y in s[..i] + [x] + s[i..] <==> y in s || y == x
  {
    var s' := s[..i] + [x] + s[i..];
    forall a, b | 0 <= a < b < |s'| ensures s'[a] != s'[b] {
      assert a < i ==> s'[a] == s[a];
      assert a > i ==> s'[a] == s[a-1];
      assert b < i ==> s'[b] == s[b];
      assert b > i ==> s'[b] == s[b-1];
    }
    assert s == s[..i] + s[i..];
  }

  lemma EraseByTime(nodes: seq<nat>, vt: map<nat, int>, g: nat)
    requires ByTime(nodes, vt)
    ensures ByTime(Erase(nodes, g), vt)
  {
    if g in nodes {
      WithoutByTime(nodes, vt, IndexOf(nodes, g));
    }
  }

  lemma WithoutByTime(nodes: seq<nat>, vt: map<nat, int>, i: nat)
    requires ByTime(nodes, vt) && i < |nodes|
    ensures ByTime(nodes[..i] + nodes[i+1..], vt)
  {
    hide Vt;
    var s' := nodes[..i] + nodes[i+1..];
    forall a, b | 0 <= a < b < |s'| ensures Vt(vt, s'[a]) <= Vt(vt, s'[b]) {
      var a', b' := if a < i then a else a + 1, if b < i then b else b + 1;
      assert s'[a] == nodes[a'] && s'[b] == nodes[b'];
    }
  }

  lemma LinkByTime(nodes: seq<nat>, vt: map<nat, int>, g: nat, i: nat)
    requires ByTime(nodes, vt) && i <= |nodes|
    requires forall j | 0 <= j < i :: Vt(vt, nodes[j]) <= Vt(vt, g)
    requires i < |nodes| ==> Vt(vt, g) < Vt(vt, nodes[i])
    ensures ByTime(nodes[..i] + [g] + nodes[i..], vt)
  {
    hide Vt;
    var s' := nodes[..i] + [g] + nodes[i..];
    forall a, b | 0 <= a < b < |s'| ensures Vt(vt, s'[a]) <= Vt(vt, s'[b]) {
      var a', b' := if a < i then a else a - 1, if b < i then b else b - 1;
      if a != i && b != i {
        assert s'[a] == nodes[a'] && s'[b] == nodes[b'];
      } else if a == i {
        assert s'[b] == nodes[b'] && (i < b' ==> Vt(vt, nodes[i]) <= Vt(vt, nodes[b']));
      } else {
        assert s'[a] == nodes[a'];
      }
    }
  }

  /** Times of other groups do not matter. */
  lemma Retimed(nodes: seq<nat>, vt: map<nat, int>, g: nat, v: int, min: int)
    requires g !in nodes
    ensures ByTime(nodes, vt) ==> ByTime(nodes, vt[g := v])
    ensures AboveMin(nodes, vt, min) ==> AboveMin(nodes, vt[g := v], min)
  {
    forall i | 0 <= i < |nodes| ensures Vt(vt[g := v], nodes[i]) == Vt(vt, nodes[i]) {
      assert nodes[i] in nodes;
    }
    assert forall x | x in nodes :: Vt(vt[g := v], x) == Vt(vt, x);
  }

  lemma LinkKeeps(t: GroupTree, g: nat)
    requires TreeInv(t) && g !in t.nodes && t.minVt <= Vt(t.vt, g)
    ensures TreeInv(Link(t, g))
    ensures forall x :: x in Link(t, g).nodes <==> x in t.nodes || x == g
  {
    hide NoDup, ByTime, Vt;
    var i := Place(t.nodes, t.vt, Vt(t.vt, g));
    InsertOnce(t.nodes, i, g);
    LinkByTime(t.nodes, t.vt, g, i);
  }

  lemma UnlinkKeeps(t: GroupTree, g: nat)
    requires TreeInv(t)
    ensures TreeInv(Unlink(t, g))
    ensures forall x :: x in Unlink(t, g).nodes <==> x in t.nodes && x != g
  {
    EraseOnce(t.nodes, g);
    EraseByTime(t.nodes, t.vt, g);
    FirstStays(t.nodes, g);
  }

  lemma FirstStays<T>(nodes: seq<T>, g: T)
    ensures nodes != [] && nodes[0] != g ==> Erase(nodes, g) != [] && Erase(nodes, g)[0] == nodes[0]
  {
  }

  lemma AddGroupKeeps(t: GroupTree, g: nat)
    requires TreeInv(t) && g !in t.nodes
    ensures TreeInv(AddGroup(t, g))
    ensures forall x :: x in AddGroup(t, g).nodes <==> x in t.nodes || x == g
  {
    hide NoDup, ByTime, Link;
    var v := if t.nodes != [] then Vt(t.vt, t.nodes[|t.nodes| - 1]) + IDLE_DELAY else t.minVt;
    assert t.nodes != [] ==> t.nodes[|t.nodes| - 1] in t.nodes;
    Retimed(t.nodes, t.vt, g, v, t.minVt);
    LinkKeeps(t.(vt := t.vt[g := v]), g);
  }

  lemma DelGroupKeeps(t: GroupTree, g: nat)
    requires TreeInv(t)
    ensures TreeInv(DelGroup(t, g))
    ensures forall x :: x in DelGroup(t, g).nodes <==> x in t.nodes && x != g
  {
    hide NoDup, ByTime, Unlink;
    UnlinkKeeps(t.(active := if t.active == Some(g) then None else t.active), g);
  }

  lemma ServeKeeps(t: GroupTree, g: nat, charge: nat)
    requires TreeInv(t) && g in t.nodes
    ensures TreeInv(Serve(t, g, charge))
    ensures forall x :: x in Serve(t, g, charge).nodes <==> x in t.nodes
  {
    hide NoDup, ByTime, Link, Unlink, ScaleSlice;
    UnlinkKeeps(t, g);
    UnlinkTimes(t, g);
    var t1 := Unlink(t, g);
    var v := Vt(t1.vt, g) + ScaleSlice(charge, Weight(t, g));
    Retimed(t1.nodes, t1.vt, g, v, t1.minVt);
    LinkKeeps(t1.(vt := t1.vt[g := v]), g);
  }

  lemma UnlinkTimes(t: GroupTree, g: nat)
    ensures Unlink(t, g).vt == t.vt && Unlink(t, g).minVt == t.minVt && Unlink(t, g).weight == t.weight
  {
  }

  /** cfq_get_next_cfqg finds a group of least vdisktime, makes it the active one, and raises
      min_vdisktime to it. */
  lemma NextGroupKeeps(t: GroupTree)
    requires TreeInv(t)
    ensures var (t', g) := NextGroup(t);
            && TreeInv(t')
            && t'.nodes == t.nodes && t'.vt == t.vt && t'.weight == t.weight
            && t.minVt <= t'.minVt
            && (g.None? <==> t.nodes == [])
            && (g.Some? ==> g.value in t.nodes && forall x | x in t.nodes :: Vt(t.vt, g.value) <= Vt(t.vt, x))
            && (g.Some? ==> t'.active == g && t'.left == g && t'.minVt == Vt(t.vt, g.value))
  {
    hide NoDup, Vt;
    if t.nodes != [] {
      FirstIsLeast(t.nodes, t.vt);
    }
  }

  lemma FirstIsLeast(nodes: seq<nat>, vt: map<nat, int>)
    requires ByTime(nodes, vt) && nodes != []
    ensures nodes[0] in nodes && forall x | x in nodes :: Vt(vt, nodes[0]) <= Vt(vt, x)
  {
  }

  // ---------------------------------------------------------------------------
  // Fairness
  // ---------------------------------------------------------------------------

  /** Any two queued groups are at most d apart. */
  ghost predicate WithinGap(t: GroupTree, d: int) {
    forall g, h | g in t.nodes && h in t.nodes :: Vt(t.vt, g) - Vt(t.vt, h) <= d
  }

  /** One slice: cfq_choose_cfqg picks a group and cfq_group_served charges it. */
  function Slice(t: GroupTree, charge: nat): GroupTree {
    var (t1, g) := NextGroup(t);
    if g.None? then t1 else Serve(t1, g.value, charge)
  }

  function Slices(t: GroupTree, charges: seq<nat>): GroupTree {
    if charges == [] then t else Slice(Slices(t, charges[..|charges| - 1]), charges[|charges| - 1])
  }

  /** No slice costs any group more than d. */
  ghost predicate Bounded(t: GroupTree, charges: seq<nat>, d: int) {
    forall i, g | 0 <= i < |charges| && g in t.nodes :: ScaleSlice(charges[i], Weight(t, g)) <= d
  }

  lemma LinkTimes(t: GroupTree, g: nat)
    ensures Link(t, g).vt == t.vt && Link(t, g).minVt == t.minVt && Link(t, g).weight == t.weight
  {
  }

  lemma SliceKeeps(t: GroupTree, charge: nat)
    requires TreeInv(t)
    ensures TreeInv(Slice(t, charge))
    ensures forall x :: x in Slice(t, charge).nodes <==> x in t.nodes
    ensures Slice(t, charge).weight == t.weight && t.minVt <= Slice(t, charge).minVt
  {
    hide TreeInv, Link, Unlink, NextGroup;
    NextGroupKeeps(t);
    var (t1, g) := NextGroup(t);
    if g.Some? {
      ServeKeeps(t1, g.value, charge);
      UnlinkTimes(t1, g.value);
      LinkTimes(Unlink(t1, g.value).(vt := Unlink(t1, g.value).vt[g.value := Vt(t1.vt, g.value) + ScaleSlice(charge, Weight(t1, g.value))]), g.value);
    }
  }

  /** What a slice does to the times: the least group advances by its scaled charge. */
  lemma SliceTimes(t: GroupTree, charge: nat)
    requires TreeInv(t) && t.nodes != []
    ensures var g := NextGroup(t).1.value;
            && NextGroup(t).1.Some?
            && Slice(t, charge).vt == t.vt[g := Vt(t.vt, g) + ScaleSlice(charge, Weight(t, g))]
  {
    hide TreeInv, Link, Unlink, NextGroup, ScaleSlice;
    NextGroupKeeps(t);
    var (t1, g) := NextGroup(t);
    UnlinkTimes(t1, g.value);
    LinkTimes(Unlink(t1, g.value).(vt := Unlink(t1, g.value).vt[g.value := Vt(t1.vt, g.value) + ScaleSlice(charge, Weight(t1, g.value))]), g.value);
  }

  lemma SliceGap(t: GroupTree, charge: nat, d: int)
    requires TreeInv(t) && WithinGap(t, d)
    requires forall g | g in t.nodes :: ScaleSlice(charge, Weight(t, g)) <= d
    ensures WithinGap(Slice(t, charge), d)
  {
    hide TreeInv, Slice, NextGroup, ScaleSlice;
    SliceKeeps(t, charge);
    if t.nodes != [] {
      SliceTimes(t, charge);
      NextGroupKeeps(t);
    }
  }

  lemma {:induction false} SlicesKeep(t: GroupTree, charges: seq<nat>)
    requires TreeInv(t)
    ensures TreeInv(Slices(t, charges))
    ensures forall x :: x in Slices(t, charges).nodes <==> x in t.nodes
    ensures Slices(t, charges).weight == t.weight && t.minVt <= Slices(t, charges).minVt
  {
    hide TreeInv, Slice;
    if charges != [] {
      var before := charges[..|charges| - 1];
      SlicesKeep(t, before);
      SliceKeeps(Slices(t, before), charges[|charges| - 1]);
    }
  }

  /** Group fairness: over any number of slices the vdisktimes of backlogged groups never get
      further apart than they started, or than one slice. */
  lemma {:induction false} GroupsStayClose(t: GroupTree, charges: seq<nat>, d: int)
    requires TreeInv(t) && WithinGap(t, d) && Bounded(t, charges, d)
    ensures WithinGap(Slices(t, charges), d)
  {
    hide TreeInv, Slice, WithinGap, ScaleSlice;
    if charges != [] {
      var before := charges[..|charges| - 1];
      assert forall i | 0 <= i < |before| :: before[i] == charges[i];
      GroupsStayClose(t, before, d);
      SlicesKeep(t, before);
      SliceGap(Slices(t, before), charges[|charges| - 1], d);
    }
  }

  /** The scaled service that group g gets. */
  ghost function Service(t: GroupTree, charges: seq<nat>, g: nat): nat {
    if charges == [] then 0
    else
      var before := charges[..|charges| - 1];
      var t1 := Slices(t, before);
      Service(t, before, g)
      + if NextGroup(t1).1 == Some(g) then ScaleSlice(charges[|charges| - 1], Weight(t1, g)) else 0
  }

  lemma {:induction false} ServiceIsTime(t: GroupTree, charges: seq<nat>, g: nat)
    requires TreeInv(t) && g in t.nodes
    ensures Vt(Slices(t, charges).vt, g) == Vt(t.vt, g) + Service(t, charges, g)
  {
    hide TreeInv, Slice, NextGroup, ScaleSlice;
    if charges != [] {
      var before := charges[..|charges| - 1];
      ServiceIsTime(t, before, g);
      SlicesKeep(t, before);
      SliceTimes(Slices(t, before), charges[|charges| - 1]);
    }
  }

  /** Weighted fair shares: however long two groups stay backlogged, the service they get,
      scaled by weight, differs by no more than a fixed amount. */
  lemma FairShares(t: GroupTree, charges: seq<nat>, d: int, g: nat, h: nat)
    requires TreeInv(t) && WithinGap(t, d) && Bounded(t, charges, d)
    requires g in t.nodes && h in t.nodes
    ensures -2 * d <= Service(t, charges, g) - Service(t, charges, h) <= 2 * d
  {
    hide TreeInv, Slices, Bounded, Service, Vt;
    GroupsStayClose(t, charges, d);
    SlicesKeep(t, charges);
    ServiceIsTime(t, charges, g);
    ServiceIsTime(t, charges, h);
  }
}
