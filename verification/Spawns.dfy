/** crypto_remove_spawns: an iterative depth-first walk that unregisters every instance built on
    an algorithm. */
module Spawns {
  import opened Common

  type Alg = nat
  type Spawn = nat
  type Lists = map<Alg, seq<Spawn>>

  function Users(us: Lists, a: Alg): seq<Spawn> {
    if a in us then us[a] else []
  }

  function Inst(inst: map<Spawn, Alg>, s: Spawn): Alg {
    if s in inst then inst[s] else 0
  }

  // ---------------------------------------------------------------------------
  // Reachability through cra_users
  // ---------------------------------------------------------------------------

  /** b is built on a through n spawns. */
  ghost predicate Path(us: Lists, inst: map<Spawn, Alg>, a: Alg, b: Alg, n: nat)
    decreases n
  {
    if n == 0 then a == b
    else exists s :: s in Users(us, a) && Path(us, inst, Inst(inst, s), b, n - 1)
  }

  ghost predicate Reaches(us: Lists, inst: map<Spawn, Alg>, a: Alg, b: Alg) {
    exists n: nat :: n > 0 && Path(us, inst, a, b, n)
  }

  lemma {:induction false} PathSnoc(us: Lists, inst: map<Spawn, Alg>, a: Alg, b: Alg, n: nat, s: Spawn)
    requires Path(us, inst, a, b, n) && s in Users(us, b)
    ensures Path(us, inst, a, Inst(inst, s), n + 1)
    decreases n
  {
    if n == 0 {
      assert Path(us, inst, Inst(inst, s), Inst(inst, s), 0);
    } else {
      var t :| t in Users(us, a) && Path(us, inst, Inst(inst, t), b, n - 1);
      PathSnoc(us, inst, Inst(inst, t), b, n - 1, s);
    }
  }

  lemma ReachesOne(us: Lists, inst: map<Spawn, Alg>, a: Alg, s: Spawn)
    requires s in Users(us, a)
    ensures Reaches(us, inst, a, Inst(inst, s))
  {
    PathSnoc(us, inst, a, a, 0, s);
  }

  lemma ReachesMore(us: Lists, inst: map<Spawn, Alg>, a: Alg, b: Alg, s: Spawn)
    requires Reaches(us, inst, a, b) && s in Users(us, b)
    ensures Reaches(us, inst, a, Inst(inst, s))
  {
    var n: nat :| n > 0 && Path(us, inst, a, b, n);
    PathSnoc(us, inst, a, b, n, s);
  }

  lemma ReachesFirst(us: Lists, inst: map<Spawn, Alg>, a: Alg, b: Alg, s: Spawn)
    requires s in Users(us, a) && (Inst(inst, s) == b || Reaches(us, inst, Inst(inst, s), b))
    ensures Reaches(us, inst, a, b)
  {
    if Inst(inst, s) == b {
      ReachesOne(us, inst, a, s);
    } else {
      var n: nat :| n > 0 && Path(us, inst, Inst(inst, s), b, n);
      assert Path(us, inst, a, b, n + 1);
    }
  }

  /** The first spawn on the way. */
  lemma FirstOfPath(us: Lists, inst: map<Spawn, Alg>, a: Alg, b: Alg) returns (s: Spawn)
    requires Reaches(us, inst, a, b)
    ensures s in Users(us, a) && (Inst(inst, s) == b || Reaches(us, inst, Inst(inst, s), b))
  {
    var n: nat :| n > 0 && Path(us, inst, a, b, n);
    s :| s in Users(us, a) && Path(us, inst, Inst(inst, s), b, n - 1);
    if n > 1 {
      assert Path(us, inst, Inst(inst, s), b, n - 1);
    }
  }

  /** The last spawn on the way. */
  lemma LastOfPath(us: Lists, inst: map<Spawn, Alg>, a: Alg, b: Alg) returns (c: Alg, s: Spawn)
    requires Reaches(us, inst, a, b)
    ensures (c == a || Reaches(us, inst, a, c)) && s in Users(us, c) && Inst(inst, s) == b
  {
    var n: nat :| n > 0 && Path(us, inst, a, b, n);
    c, s := LastOfPathOf(us, inst, a, b, n);
  }

  lemma {:induction false} LastOfPathOf(us: Lists, inst: map<Spawn, Alg>, a: Alg, b: Alg, n: nat) returns (c: Alg, s: Spawn)
    requires n > 0 && Path(us, inst, a, b, n)
    ensures (c == a || Reaches(us, inst, a, c)) && s in Users(us, c) && Inst(inst, s) == b
    decreases n
  {
    var t :| t in Users(us, a) && Path(us, inst, Inst(inst, t), b, n - 1);
    if n == 1 {
      c, s := a, t;
    } else {
      c, s := LastOfPathOf(us, inst, Inst(inst, t), b, n - 1);
      ReachesFirst(us, inst, a, c, t);
    }
  }

  ghost predicate SameMembers(us: Lists, us': Lists) {
    forall a: Alg, s: Spawn :: s in Users(us, a) <==> s in Users(us', a)
  }

  /** Reachability depends on who is on the lists, not on their order. */
  lemma SameReach(us: Lists, us': Lists, inst: map<Spawn, Alg>, a: Alg, b: Alg)
    requires SameMembers(us, us')
    ensures Reaches(us, inst, a, b) <==> Reaches(us', inst, a, b)
  {
    forall n: nat ensures Path(us, inst, a, b, n) <==> Path(us', inst, a, b, n) {
      SamePath(us, us', inst, a, b, n);
    }
  }

  lemma {:induction false} SamePath(us: Lists, us': Lists, inst: map<Spawn, Alg>, a: Alg, b: Alg, n: nat)
    requires SameMembers(us, us')
    ensures Path(us, inst, a, b, n) <==> Path(us', inst, a, b, n)
    decreases n
  {
    if n > 0 {
      forall s ensures Path(us, inst, Inst(inst, s), b, n - 1) <==> Path(us', inst, Inst(inst, s), b, n - 1) {
        SamePath(us, us', inst, Inst(inst, s), b, n - 1);
      }
    }
  }

  /** A set that is closed under cra_users holds everything reachable. */
  ghost predicate Closed(us: Lists, inst: map<Spawn, Alg>, k: set<Alg>, a: Alg) {
    forall s | s in Users(us, a) :: Inst(inst, s) in k
  }

  lemma {:induction false} ClosedPath(us: Lists, inst: map<Spawn, Alg>, k: set<Alg>, a: Alg, b: Alg, n: nat)
    requires n > 0 && Path(us, inst, a, b, n) && Closed(us, inst, k, a)
    requires forall c | c in k :: Closed(us, inst, k, c)
    ensures b in k
    decreases n
  {
    var s :| s in Users(us, a) && Path(us, inst, Inst(inst, s), b, n - 1);
    if n > 1 {
      ClosedPath(us, inst, k, Inst(inst, s), b, n - 1);
    }
  }

  // ---------------------------------------------------------------------------
  // Where the spawns are during the walk
  // ---------------------------------------------------------------------------

  datatype Place = InUsers(alg: Alg) | OnTop | OnStack | Secondary

  /** A list holds exactly the spawns whose place it is, once each. */
  ghost predicate Holds(at: map<Spawn, Place>, list: seq<Spawn>, p: Place) {
    NoDup(list) && forall s :: s in list <==> s in at && at[s] == p
  }

  ghost predicate UsersHold(at: map<Spawn, Place>, us: Lists) {
    forall a: Alg :: Holds(at, Users(us, a), InUsers(a))
  }

  /** Spawns that have not been taken up yet. */
  ghost function Waiting(at: map<Spawn, Place>): set<Spawn> {
    set s | s in at && (at[s].InUsers? || at[s].OnTop?)
  }

  lemma TakeFirst(at: map<Spawn, Place>, list: seq<Spawn>, p: Place, q: Place)
    requires Holds(at, list, p) && list != [] && p != q
    ensures Holds(at[list[0] := q], list[1..], p)
    ensures list[0] in at && at[list[0]] == p
  {
    var s := list[0];
    assert s in list;
    forall x ensures x in list[1..] <==> x in at[s := q] && at[s := q][x] == p {
      if x in list && x != s {
        var i :| 0 <= i < |list| && list[i] == x;
        assert list[1..][i-1] == x;
      }
      if x in list[1..] {
        var j :| 0 <= j < |list[1..]| && list[1..][j] == x;
        assert list[j+1] == x;
      }
    }
  }

  lemma PutFirst(at: map<Spawn, Place>, list: seq<Spawn>, s: Spawn, p: Place)
    requires Holds(at, list, p) && s in at && at[s] != p
    ensures Holds(at[s := p], [s] + list, p)
  {
    assert s !in list;
    forall i, j | 0 <= i < j < |[s] + list| ensures ([s] + list)[i] != ([s] + list)[j] {
      assert i > 0 ==> list[i-1] != list[j-1];
      assert i == 0 ==> list[j-1] in list;
    }
  }

  lemma Elsewhere(at: map<Spawn, Place>, list: seq<Spawn>, s: Spawn, p: Place, q: Place)
    requires Holds(at, list, p) && s in at && at[s] != p && q != p
    ensures Holds(at[s := q], list, p)
  {
  }

  lemma UsersElsewhere(at: map<Spawn, Place>, us: Lists, s: Spawn, q: Place)
    requires UsersHold(at, us) && s in at && !at[s].InUsers? && !q.InUsers?
    ensures UsersHold(at[s := q], us)
  {
    forall a: Alg ensures Holds(at[s := q], Users(us, a), InUsers(a)) {
      assert Holds(at, Users(us, a), InUsers(a));
      Elsewhere(at, Users(us, a), s, InUsers(a), q);
    }
  }

  lemma UsersTake(at: map<Spawn, Place>, us: Lists, a: Alg, q: Place)
    requires UsersHold(at, us) && Users(us, a) != [] && !q.InUsers?
    ensures UsersHold(at[Users(us, a)[0] := q], us[a := Users(us, a)[1..]])
    ensures Users(us, a)[0] in at && at[Users(us, a)[0]] == InUsers(a)
  {
    var s := Users(us, a)[0];
    assert Holds(at, Users(us, a), InUsers(a));
    TakeFirst(at, Users(us, a), InUsers(a), q);
    forall b: Alg ensures Holds(at[s := q], Users(us[a := Users(us, a)[1..]], b), InUsers(b)) {
      assert Holds(at, Users(us, b), InUsers(b));
      if b != a {
        Elsewhere(at, Users(us, b), s, InUsers(b), q);
      }
    }
  }

  /** The walk's bookkeeping. */
  ghost predicate Tracked(at: map<Spawn, Place>, us: Lists, top: seq<Spawn>, stack: seq<Spawn>, secondary: seq<Spawn>) {
    && UsersHold(at, us)
    && Holds(at, top, OnTop)
    && Holds(at, stack, OnStack)
    && Holds(at, secondary, Secondary)
  }

  /** What was once on a users list is there still, or has been taken up; nothing is added. */
  ghost predicate ShrunkAt(us0: Lists, us: Lists, at: map<Spawn, Place>, a: Alg, s: Spawn) {
    && (s in Users(us0, a) ==> s in at && (at[s].InUsers? ==> s in Users(us, a)))
    && (s in Users(us, a) ==> s in Users(us0, a))
  }

  ghost predicate Shrunk(us0: Lists, us: Lists, at: map<Spawn, Place>) {
    forall a: Alg, s: Spawn :: ShrunkAt(us0, us, at, a, s)
  }

  lemma UsersAfter(us: Lists, a: Alg, b: Alg, x: Spawn)
    requires Users(us, a) != []
    ensures x in Users(us[a := Users(us, a)[1..]], b) ==> x in Users(us, b)
    ensures x in Users(us, b) && x != Users(us, a)[0] ==> x in Users(us[a := Users(us, a)[1..]], b)
  {
    assert Users(us, a) == [Users(us, a)[0]] + Users(us, a)[1..];
  }

  lemma ShrunkTake(us0: Lists, us: Lists, at: map<Spawn, Place>, a: Alg, q: Place)
    requires Shrunk(us0, us, at) && UsersHold(at, us) && Users(us, a) != [] && !q.InUsers?
    ensures Shrunk(us0, us[a := Users(us, a)[1..]], at[Users(us, a)[0] := q])
  {
    hide UsersHold, Users;
    var us' := us[a := Users(us, a)[1..]];
    var at' := at[Users(us, a)[0] := q];
    forall b: Alg, x: Spawn ensures ShrunkAt(us0, us', at', b, x) {
      assert ShrunkAt(us0, us, at, b, x);
      UsersAfter(us, a, b, x);
    }
  }

  lemma ShrunkElsewhere(us0: Lists, us: Lists, at: map<Spawn, Place>, s: Spawn, q: Place)
    requires Shrunk(us0, us, at) && s in at && !at[s].InUsers? && !q.InUsers?
    ensures Shrunk(us0, us, at[s := q])
  {
    hide Users;
    var at' := at[s := q];
    forall b: Alg, x: Spawn ensures ShrunkAt(us0, us, at', b, x) {
      assert ShrunkAt(us0, us, at, b, x);
    }
  }

  lemma WaitingLess(at: map<Spawn, Place>, s: Spawn, q: Place)
    requires s in at && (at[s].InUsers? || at[s].OnTop?) && !q.InUsers? && !q.OnTop?
    ensures |Waiting(at[s := q])| == |Waiting(at)| - 1
  {
    assert Waiting(at) == Waiting(at[s := q]) + {s};
  }

  lemma WaitingSame(at: map<Spawn, Place>, s: Spawn, q: Place)
    requires s in at && !at[s].InUsers? && !at[s].OnTop? && !q.InUsers? && !q.OnTop?
    ensures Waiting(at[s := q]) == Waiting(at)
  {
  }

  /** Everything taken up is reachable from alg. */
  ghost predicate TakenReachable(us0: Lists, inst: map<Spawn, Alg>, alg: Alg, at: map<Spawn, Place>) {
    forall s | s in at && !at[s].InUsers? :: Reaches(us0, inst, alg, Inst(inst, s))
  }

  /** The users of what has been walked past are all taken up. */
  ghost predicate Exhausted(us: Lists, inst: map<Spawn, Alg>, secondary: seq<Spawn>) {
    forall s | s in secondary :: Users(us, Inst(inst, s)) == []
  }

  /** The list the walk is in: the users of the instance on the stack, or the top list. */
  function Current(us: Lists, inst: map<Spawn, Alg>, top: seq<Spawn>, stack: seq<Spawn>): seq<Spawn> {
    if stack == [] then top else Users(us, Inst(inst, stack[0]))
  }

  /** The invariant of both loops. */
  ghost predicate Walking(us0: Lists, inst: map<Spawn, Alg>, alg: Alg, us: Lists, at: map<Spawn, Place>,
                          top: seq<Spawn>, stack: seq<Spawn>, secondary: seq<Spawn>)
  {
    && Tracked(at, us, top, stack, secondary)
    && Shrunk(us0, us, at)
    && TakenReachable(us0, inst, alg, at)
    && OthersSame(us0, inst, alg, us)
  }

  /** Only the users of alg and of what is reachable from it change. */
  ghost predicate OthersSame(us0: Lists, inst: map<Spawn, Alg>, alg: Alg, us: Lists) {
    forall b: Alg :: Users(us, b) == Users(us0, b) || b == alg || Reaches(us0, inst, alg, b)
  }

  /** Taking the next spawn from the top list. */
  lemma TakeTop(us0: Lists, inst: map<Spawn, Alg>, alg: Alg, us: Lists, at: map<Spawn, Place>,
                top: seq<Spawn>, stack: seq<Spawn>, secondary: seq<Spawn>)
    requires Walking(us0, inst, alg, us, at, top, stack, secondary) && top != []
    ensures Walking(us0, inst, alg, us, at[top[0] := OnStack], top[1..], [top[0]] + stack, secondary)
    ensures |Waiting(at[top[0] := OnStack])| == |Waiting(at)| - 1
    ensures Reaches(us0, inst, alg, Inst(inst, top[0]))
  {
    hide Holds, Shrunk, UsersHold, Reaches;
    var s := top[0];
    TakeFirst(at, top, OnTop, OnStack);
    PutFirst(at, stack, s, OnStack);
    Elsewhere(at, secondary, s, Secondary, OnStack);
    UsersElsewhere(at, us, s, OnStack);
    ShrunkElsewhere(us0, us, at, s, OnStack);
    WaitingLess(at, s, OnStack);
  }

  /** Taking the next spawn from the users of an instance. */
  lemma TakeUser(us0: Lists, inst: map<Spawn, Alg>, alg: Alg, us: Lists, at: map<Spawn, Place>,
                 top: seq<Spawn>, stack: seq<Spawn>, secondary: seq<Spawn>)
    requires Walking(us0, inst, alg, us, at, top, stack, secondary) && stack != [] && Users(us, Inst(inst, stack[0])) != []
    ensures var a := Inst(inst, stack[0]);
            var s := Users(us, a)[0];
            && Walking(us0, inst, alg, us[a := Users(us, a)[1..]], at[s := OnStack], top, [s] + stack, secondary)
            && |Waiting(at[s := OnStack])| == |Waiting(at)| - 1
            && Reaches(us0, inst, alg, Inst(inst, s))
  {
    hide Holds, Reaches, UsersHold;
    var a := Inst(inst, stack[0]);
    var s := Users(us, a)[0];
    assert s in Users(us, a) && ShrunkAt(us0, us, at, a, s);
    UsersTake(at, us, a, OnStack);
    ShrunkTake(us0, us, at, a, OnStack);
    Elsewhere(at, top, s, OnTop, OnStack);
    PutFirst(at, stack, s, OnStack);
    Elsewhere(at, secondary, s, Secondary, OnStack);
    WaitingLess(at, s, OnStack);
    StackReachable(us0, inst, alg, at, stack);
    ReachesMore(us0, inst, alg, a, s);
  }

  lemma StackReachable(us0: Lists, inst: map<Spawn, Alg>, alg: Alg, at: map<Spawn, Place>, stack: seq<Spawn>)
    requires TakenReachable(us0, inst, alg, at) && Holds(at, stack, OnStack) && stack != []
    ensures Reaches(us0, inst, alg, Inst(inst, stack[0]))
  {
    assert stack[0] in stack;
  }

  /** crypto_more_spawns: the spawn on the stack is done. */
  lemma Pop(us0: Lists, inst: map<Spawn, Alg>, alg: Alg, us: Lists, at: map<Spawn, Place>,
            top: seq<Spawn>, stack: seq<Spawn>, secondary: seq<Spawn>)
    requires Walking(us0, inst, alg, us, at, top, stack, secondary) && stack != []
    ensures Walking(us0, inst, alg, us, at[stack[0] := Secondary], top, stack[1..], [stack[0]] + secondary)
    ensures Waiting(at[stack[0] := Secondary]) == Waiting(at)
  {
    hide Holds, Reaches, UsersHold, Shrunk;
    var s := stack[0];
    TakeFirst(at, stack, OnStack, Secondary);
    PutFirst(at, secondary, s, Secondary);
    Elsewhere(at, top, s, OnTop, Secondary);
    UsersElsewhere(at, us, s, Secondary);
    ShrunkElsewhere(us0, us, at, s, Secondary);
    WaitingSame(at, s, Secondary);
  }

  lemma ReachedIsIn(us: Lists, inst: map<Spawn, Alg>, k: set<Alg>, a: Alg, b: Alg)
    requires Reaches(us, inst, a, b) && Closed(us, inst, k, a) && forall c | c in k :: Closed(us, inst, k, c)
    ensures b in k
  {
    var n: nat :| n > 0 && Path(us, inst, a, b, n);
    ClosedPath(us, inst, k, a, b, n);
  }

  lemma TakeAt(at: map<Spawn, Place>, a: seq<Spawn>, s: Spawn, b: seq<Spawn>, p: Place, q: Place)
    requires Holds(at, a + [s] + b, p) && p != q
    ensures Holds(at[s := q], a + b, p)
    ensures s in at && at[s] == p
  {
    var list := a + [s] + b;
    assert list[|a|] == s;
    assert s in list;
    forall i, j | 0 <= i < j < |a + b| ensures (a + b)[i] != (a + b)[j] {
      var i', j' := if i < |a| then i else i + 1, if j < |a| then j else j + 1;
      assert (a + b)[i] == list[i'] && (a + b)[j] == list[j'];
    }
    forall x ensures x in a + b <==> x in list && x != s {
      if x in a + b {
        var k :| 0 <= k < |a + b| && (a + b)[k] == x;
        var k' := if k < |a| then k else k + 1;
        assert list[k'] == x;
      }
    }
  }

  lemma UsersTakeAt(at: map<Spawn, Place>, us: Lists, alg: Alg, a: seq<Spawn>, s: Spawn, b: seq<Spawn>, q: Place)
    requires UsersHold(at, us) && Users(us, alg) == a + [s] + b && !q.InUsers?
    ensures UsersHold(at[s := q], us[alg := a + b])
    ensures s in at && at[s] == InUsers(alg)
  {
    hide Holds;
    assert Holds(at, Users(us, alg), InUsers(alg));
    TakeAt(at, a, s, b, InUsers(alg), q);
    forall c: Alg ensures Holds(at[s := q], Users(us[alg := a + b], c), InUsers(c)) {
      assert Holds(at, Users(us, c), InUsers(c));
      if c != alg {
        Elsewhere(at, Users(us, c), s, InUsers(c), q);
      }
    }
  }

  /** A spawn of alg goes to the top list. */
  lemma Selected(us0: Lists, inst: map<Spawn, Alg>, alg: Alg, us: Lists, at: map<Spawn, Place>,
                 top: seq<Spawn>, a: seq<Spawn>, s: Spawn, b: seq<Spawn>)
    requires Walking(us0, inst, alg, us, at, top, [], []) && Users(us, alg) == a + [s] + b
    ensures Walking(us0, inst, alg, us[alg := a + b], at[s := OnTop], [s] + top, [], [])
  {
    hide Holds, Reaches, UsersHold;
    UsersTakeAt(at, us, alg, a, s, b, OnTop);
    PutFirst(at, top, s, OnTop);
    Elsewhere(at, [], s, OnStack, OnTop);
    Elsewhere(at, [], s, Secondary, OnTop);
    var us', at' := us[alg := a + b], at[s := OnTop];
    assert s in Users(us, alg) && ShrunkAt(us0, us, at, alg, s);
    ReachesOne(us0, inst, alg, s);
    forall c: Alg, x: Spawn ensures ShrunkAt(us0, us', at', c, x) {
      assert ShrunkAt(us0, us, at, c, x);
    }
  }

  lemma StartWalking(us: Lists, inst: map<Spawn, Alg>, alg: Alg, at: map<Spawn, Place>)
    requires UsersHold(at, us) && forall s | s in at :: at[s].InUsers?
    ensures Walking(us, inst, alg, us, at, [], [], [])
  {
    forall a: Alg, s: Spawn ensures ShrunkAt(us, us, at, a, s) {
      assert Holds(at, Users(us, a), InUsers(a));
    }
  }

  lemma SameUsers(us: Lists, inst: map<Spawn, Alg>, alg: Alg, at: map<Spawn, Place>)
    requires Walking(us, inst, alg, us, at, [], [], [])
    ensures Walking(us, inst, alg, us[alg := Users(us, alg)], at, [], [], [])
  {
    hide Holds, Reaches;
    var us' := us[alg := Users(us, alg)];
    assert forall b: Alg :: Users(us', b) == Users(us, b);
    forall a: Alg, s: Spawn ensures ShrunkAt(us, us', at, a, s) {
      assert ShrunkAt(us, us, at, a, s);
    }
  }
}
