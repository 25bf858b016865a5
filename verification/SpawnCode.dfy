/** crypto_remove_spawns on its lists. */
module SpawnCode {
  import opened Common
  import opened Spawns
  import opened SpawnKeeping

  // ---------------------------------------------------------------------------
  // The walk
  // ---------------------------------------------------------------------------

  /** What is still waiting knows its list, and spawn->alg names it. */
  ghost predicate Untouched(g: Graph, at: map<Spawn, Place>, algs: map<Spawn, Option<Alg>>) {
    forall s | s in at && (at[s].InUsers? || at[s].OnTop?) ::
      && AlgOf(algs, s) == Some(Own(g, s))
      && (at[s].InUsers? ==> Own(g, s) == at[s].alg)
      && (at[s].OnTop? ==> Own(g, s) == g.alg && s in Users(g.us, g.alg))
  }

  /** The graph is that of the lists. */
  ghost predicate Sees(g: Graph, us0: Lists) {
    WellOwned(g) && forall b: Alg | b != g.alg && !IsNew(g, b) :: Users(g.us, b) == Users(us0, b)
  }

  lemma NextOnTop(g: Graph, us0: Lists, us: Lists, at: map<Spawn, Place>, top: seq<Spawn>, secondary: seq<Spawn>, algs: map<Spawn, Option<Alg>>)
    requires Walking(us0, g.inst, g.alg, us, at, top, [], secondary) && Untouched(g, at, algs) && top != []
    requires Inst(g.inst, top[0]) != g.alg
    ensures Next(g, us, [], secondary, algs, top[0])
  {
    hide Reaches, Shrunk, TakenReachable, OthersSame, UsersHold, Users, AlgOf;
    assert top[0] in top;
  }

  lemma NextAmongUsers(g: Graph, us0: Lists, us: Lists, at: map<Spawn, Place>, top: seq<Spawn>, stack: seq<Spawn>, secondary: seq<Spawn>,
                       algs: map<Spawn, Option<Alg>>, s: Spawn)
    requires Walking(us0, g.inst, g.alg, us, at, top, stack, secondary) && Untouched(g, at, algs) && Sees(g, us0)
    requires stack != [] && Inst(g.inst, stack[0]) != g.alg && !IsNew(g, Inst(g.inst, stack[0]))
    requires s in Users(us, Inst(g.inst, stack[0])) && Inst(g.inst, s) != g.alg
    ensures Next(g, us, stack, secondary, algs, s)
  {
    hide Reaches, TakenReachable, OthersSame, Users, AlgOf;
    var b := Inst(g.inst, stack[0]);
    assert Holds(at, Users(us, b), InUsers(b));
    assert ShrunkAt(us0, us, at, b, s);
  }

  /** Where the next spawn leads, alg can be reached. */
  lemma NextReached(g: Graph, us: Lists, stack: seq<Spawn>, secondary: seq<Spawn>, s: Spawn)
    requires AllPassed(g, stack, secondary)
    requires s in Users(g.us, if stack == [] then g.alg else Inst(g.inst, stack[0]))
    ensures Reaches(g.us, g.inst, g.alg, Inst(g.inst, s))
  {
    hide Reaches;
    if stack == [] {
      ReachesOne(g.us, g.inst, g.alg, s);
    } else {
      assert Taken(stack, secondary, stack[0]);
      PassedOn(g, stack[0]);
      ReachesMore(g.us, g.inst, g.alg, Inst(g.inst, stack[0]), s);
    }
  }

  lemma AllUsersTaken(g: Graph, us0: Lists, us: Lists, at: map<Spawn, Place>, top: seq<Spawn>, stack: seq<Spawn>, secondary: seq<Spawn>,
                      algs: map<Spawn, Option<Alg>>, b: Alg)
    requires Walking(us0, g.inst, g.alg, us, at, top, stack, secondary) && Untouched(g, at, algs) && Sees(g, us0)
    requires b != g.alg && !IsNew(g, b) && Users(us, b) == []
    ensures UsersTaken(g, stack, secondary, b)
  {
    hide Reaches, TakenReachable, OthersSame, AlgOf;
    forall c | c in Users(g.us, b) ensures Taken(stack, secondary, c) {
      assert ShrunkAt(us0, us, at, b, c);
      assert Own(g, c) == b;
    }
  }

  lemma WalkingApart(g: Graph, us0: Lists, us: Lists, at: map<Spawn, Place>, top: seq<Spawn>, stack: seq<Spawn>, secondary: seq<Spawn>)
    requires Walking(us0, g.inst, g.alg, us, at, top, stack, secondary)
    ensures Apart(stack, secondary)
  {
    hide Reaches, Shrunk, TakenReachable, OthersSame, UsersHold;
  }

  lemma StartKeeping(g: Graph, us: Lists, top: seq<Spawn>, algs: map<Spawn, Option<Alg>>)
    requires WellOwned(g) && Users(g.us, g.alg) == top
    ensures Keeping(g, us, top, [], [], algs, map[])
  {
  }

  lemma WalkedThrough(g: Graph, us0: Lists, us: Lists, at: map<Spawn, Place>, secondary: seq<Spawn>,
                      algs: map<Spawn, Option<Alg>>, par: map<Spawn, Spawn>)
    requires Walking(us0, g.inst, g.alg, us, at, [], [], secondary) && Untouched(g, at, algs) && Sees(g, us0)
    requires Keeping(g, us, [], [], secondary, algs, par)
    ensures Through(g, secondary)
  {
    hide Walking, Untouched, Reaches, AllRightly, ParentsKept, KeptForChild, OneParent, UsersFirst, LeadersKept, NoCycle, OneSpawnEach, Passed;
    forall c | c in Users(g.us, g.alg) ensures c in secondary {
      assert Taken([], secondary, c);
    }
    forall s, c | s in secondary && c in Users(g.us, Inst(g.inst, s)) ensures c in secondary {
      assert Taken([], secondary, s);
      AllUsersTaken(g, us0, us, at, [], [], secondary, algs, Inst(g.inst, s));
      assert Taken([], secondary, c);
    }
  }

  /** Taking a spawn from where it waits leaves the others untouched. */
  lemma UntouchedTake(g: Graph, at: map<Spawn, Place>, algs: map<Spawn, Option<Alg>>, s: Spawn)
    requires Untouched(g, at, algs) && s in at
    ensures Untouched(g, at[s := OnStack], AfterTake(g, algs, s))
  {
  }

  lemma UntouchedPop(g: Graph, at: map<Spawn, Place>, algs: map<Spawn, Option<Alg>>, stack: seq<Spawn>, par: map<Spawn, Spawn>)
    requires Untouched(g, at, algs) && stack != [] && StackPath(g, stack, par) && Holds(at, stack, OnStack)
    ensures Untouched(g, at[stack[0] := Secondary], KeepBelow(algs, g.inst, g.alg, stack))
  {
    hide KeepBelow, StackPath, AlgOf;
    forall x ensures x !in stack ==> AlgOf(KeepBelow(algs, g.inst, g.alg, stack), x) == AlgOf(algs, x) {
      PopAlgs(g, stack, par, algs, x);
    }
  }

  lemma WalkingStack(us0: Lists, inst: map<Spawn, Alg>, alg: Alg, us: Lists, at: map<Spawn, Place>, top: seq<Spawn>, stack: seq<Spawn>, secondary: seq<Spawn>)
    requires Walking(us0, inst, alg, us, at, top, stack, secondary)
    ensures Holds(at, stack, OnStack) && Holds(at, top, OnTop) && Holds(at, secondary, Secondary) && UsersHold(at, us)
  {
  }

  lemma KeepingParts(g: Graph, us: Lists, top: seq<Spawn>, stack: seq<Spawn>, secondary: seq<Spawn>, algs: map<Spawn, Option<Alg>>, par: map<Spawn, Spawn>)
    requires Keeping(g, us, top, stack, secondary, algs, par)
    ensures StackPath(g, stack, par) && AllPassed(g, stack, secondary)
    ensures forall s | s in stack || s in secondary :: Inst(g.inst, s) != g.alg
    ensures |stack| > 1 ==> !IsNew(g, Inst(g.inst, stack[1]))
  {
    hide AllRightly, ParentsKept, KeptForChild, OneParent, UsersFirst, LeadersKept, NoCycle, OneSpawnEach, Passed, WellOwned;
    forall s | s in stack || s in secondary ensures Inst(g.inst, s) != g.alg {
      assert Taken(stack, secondary, s);
    }
    if |stack| > 1 {
      assert OnTopOf(g, par, stack[0], stack[1]);
    }
  }

  lemma SeesOwned(g: Graph, us0: Lists)
    requires Sees(g, us0)
    ensures WellOwned(g)
  {
  }

  lemma StackHere(at: map<Spawn, Place>, stack: seq<Spawn>)
    requires Holds(at, stack, OnStack) && stack != []
    ensures stack[0] in at
  {
    assert stack[0] in stack;
  }

  lemma NextIs(g: Graph, us: Lists, stack: seq<Spawn>, secondary: seq<Spawn>, algs: map<Spawn, Option<Alg>>, s: Spawn)
    requires Next(g, us, stack, secondary, algs, s)
    ensures Own(g, s) == if stack == [] then g.alg else Inst(g.inst, stack[0])
  {
  }

  /** The next spawn is waiting, on a list of the graph. */
  lemma NextIsSeen(g: Graph, us0: Lists, us: Lists, at: map<Spawn, Place>, top: seq<Spawn>, stack: seq<Spawn>, secondary: seq<Spawn>,
                   algs: map<Spawn, Option<Alg>>)
    requires Walking(us0, g.inst, g.alg, us, at, top, stack, secondary) && Untouched(g, at, algs) && Sees(g, us0)
    requires stack != [] ==> Inst(g.inst, stack[0]) != g.alg && !IsNew(g, Inst(g.inst, stack[0]))
    requires Current(us, g.inst, top, stack) != []
    ensures var s := Current(us, g.inst, top, stack)[0];
            s in at && s in Users(g.us, if stack == [] then g.alg else Inst(g.inst, stack[0]))
  {
    hide Reaches, TakenReachable, OthersSame, AlgOf;
    var s := Current(us, g.inst, top, stack)[0];
    if stack == [] {
      assert s in top;
    } else {
      var b := Inst(g.inst, stack[0]);
      assert s in Users(us, b) && Holds(at, Users(us, b), InUsers(b));
      assert ShrunkAt(us0, us, at, b, s);
    }
  }

  /** The nested loops of crypto_remove_spawns.  They terminate for every graph; they stop at the
      BUG_ON only if alg can be reached from itself; and otherwise all that Keeping says holds of
      the spawns passed. */
  method Walk(ghost us0: Lists, ghost g: Graph, inst: map<Spawn, Alg>, alg: Alg, nalg: Option<Alg>, usTop: Lists, top0: seq<Spawn>,
              algs0: map<Spawn, Option<Alg>>, ghost at0: map<Spawn, Place>)
    returns (us: Lists, algs: map<Spawn, Option<Alg>>, secondary: seq<Spawn>, bug: bool,
             ghost at: map<Spawn, Place>, ghost par: map<Spawn, Spawn>)
    requires g.inst == inst && g.alg == alg && g.nalg == nalg
    requires Walking(us0, inst, alg, usTop, at0, top0, [], []) && Untouched(g, at0, algs0)
    requires Sees(g, us0) && Users(g.us, alg) == top0
    ensures bug ==> Reaches(g.us, inst, alg, alg)
    ensures !bug ==> Walking(us0, inst, alg, us, at, [], [], secondary) && at.Keys == at0.Keys && Untouched(g, at, algs)
    ensures !bug ==> Keeping(g, us, [], [], secondary, algs, par) && Through(g, secondary)
  {
    hide Walking, Keeping, Untouched, Sees, Through, Waiting, Reaches, Next, Holds, UsersHold, StackPath, AllPassed, Apart, UsersTaken, KeepBelow, AlgOf;
    us, algs, secondary, bug, at, par := usTop, algs0, [], false, at0, map[];
    var top, stack: seq<Spawn> := top0, [];
    SeesOwned(g, us0);
    StartKeeping(g, us, top, algs);
    while true
      invariant Walking(us0, inst, alg, us, at, top, stack, secondary) && at.Keys == at0.Keys && Untouched(g, at, algs)
      invariant Keeping(g, us, top, stack, secondary, algs, par)
      invariant stack != [] ==> !IsNew(g, Inst(inst, stack[0]))
      decreases 2 * |Waiting(at)| + |stack|
    {
      ghost var before := 2 * |Waiting(at)| + |stack|;
      var go := true;
      while go && Current(us, inst, top, stack) != []
        invariant Walking(us0, inst, alg, us, at, top, stack, secondary) && at.Keys == at0.Keys && Untouched(g, at, algs)
        invariant Keeping(g, us, top, stack, secondary, algs, par)
        invariant stack != [] ==> (go <==> !IsNew(g, Inst(inst, stack[0])))
        invariant !go ==> stack != []
        invariant 2 * |Waiting(at)| + |stack| <= before
        decreases |Waiting(at)|, go
      {
        var spawn := Current(us, inst, top, stack)[0];
        KeepingParts(g, us, top, stack, secondary, algs, par);
        NextIsSeen(g, us0, us, at, top, stack, secondary, algs);
        NextReached(g, us, stack, secondary, spawn);
        if Inst(inst, spawn) == alg {
          bug := true;
          return;
        }
        ghost var oldUs, oldTop := us, top;
        if stack == [] {
          NextOnTop(g, us0, us, at, top, secondary, algs);
          TakeTop(us0, inst, alg, us, at, top, stack, secondary);
          top := top[1..];
        } else {
          NextAmongUsers(g, us0, us, at, top, stack, secondary, algs, spawn);
          TakeUser(us0, inst, alg, us, at, top, stack, secondary);
          us := us[Inst(inst, stack[0]) := Users(us, Inst(inst, stack[0]))[1..]];
        }
        NextIs(g, oldUs, stack, secondary, algs, spawn);
        TakeKeeps(g, oldUs, us, oldTop, top, stack, secondary, algs, par, spawn);
        UntouchedTake(g, at, algs, spawn);
        par := ParAfter(stack, par, spawn);
        at, stack := at[spawn := OnStack], [spawn] + stack;
        if nalg == Some(Inst(inst, spawn)) {
          go := false;
        } else {
          algs := algs[spawn := None];
        }
      }
      if stack == [] {
        break;
      }
      KeepingParts(g, us, top, stack, secondary, algs, par);
      WalkingApart(g, us0, us, at, top, stack, secondary);
      WalkingStack(us0, inst, alg, us, at, top, stack, secondary);
      if go {
        AllUsersTaken(g, us0, us, at, top, stack, secondary, algs, Inst(inst, stack[0]));
      }
      Pop(us0, inst, alg, us, at, top, stack, secondary);
      PopKeeps(g, us, top, stack, secondary, algs, par);
      UntouchedPop(g, at, algs, stack, par);
      assert stack[0] in at by { StackHere(at, stack); }
      algs := KeepBelow(algs, inst, alg, stack);
      at, secondary, stack := at[stack[0] := Secondary], [stack[0]] + secondary, stack[1..];
    }
    WalkedThrough(g, us0, us, at, secondary, algs, par);
  }

  // ---------------------------------------------------------------------------
  // The registry
  // ---------------------------------------------------------------------------

  /** The type test of the first loop. */
  predicate Mismatched(f: bv32, t: bv32, m: bv32) {
    (f ^ t) & m != 0
  }

  /** The types differ somewhere under the mask. */
  lemma MismatchedIff(f: bv32, t: bv32, m: bv32)
    ensures Mismatched(f, t, m) <==> Under(f, m) != Under(t, m)
  {
    MaskSpreads(f, t, m);
    XorZero(f & m, t & m);
  }

  /** The flags under a mask. */
  function Under(f: bv32, m: bv32): bv32 {
    f & m
  }

  lemma MaskSpreads(f: bv32, t: bv32, m: bv32)
    ensures (f ^ t) & m == (f & m) ^ (t & m)
  {
  }

  lemma XorZero(x: bv32, y: bv32)
    ensures x ^ y == 0 <==> x == y
  {
  }

  lemma {:induction false} MatchingUnder(list: seq<Spawn>, f: bv32, t: bv32, mask: map<Spawn, bv32>)
    ensures forall s :: s in Matching(list, f, t, mask) <==> s in list && Under(f, MaskOf(mask, s)) == Under(t, MaskOf(mask, s))
  {
    hide Mismatched, MaskOf, Matching, Under;
    forall s ensures s in Matching(list, f, t, mask) <==> s in list && Under(f, MaskOf(mask, s)) == Under(t, MaskOf(mask, s)) {
      MatchingIs(list, f, t, mask, s);
      MismatchedIff(f, t, MaskOf(mask, s));
    }
  }

  lemma XorSame(f: bv32, m: bv32)
    ensures !Mismatched(f, f, m)
  {
  }

  function MaskOf(mask: map<Spawn, bv32>, s: Spawn): bv32 {
    if s in mask then mask[s] else 0
  }

  /** The spawns whose type matches, last first, and the others. */
  function Matching(list: seq<Spawn>, f: bv32, t: bv32, mask: map<Spawn, bv32>): seq<Spawn> {
    if list == [] then []
    else
      var n := |list| - 1;
      (if Mismatched(f, t, MaskOf(mask, list[n])) then [] else [list[n]]) + Matching(list[..n], f, t, mask)
  }

  lemma {:induction false} MatchingIs(list: seq<Spawn>, f: bv32, t: bv32, mask: map<Spawn, bv32>, s: Spawn)
    ensures s in Matching(list, f, t, mask) <==> s in list && !Mismatched(f, t, MaskOf(mask, s))
    decreases |list|
  {
    hide Mismatched;
    if list != [] {
      var n := |list| - 1;
      MatchingIs(list[..n], f, t, mask, s);
      assert list == list[..n] + [list[n]];
    }
  }

  lemma MatchingMore(list: seq<Spawn>, i: nat, f: bv32, t: bv32, mask: map<Spawn, bv32>)
    requires i < |list|
    ensures Matching(list[..i + 1], f, t, mask)
         == (if Mismatched(f, t, MaskOf(mask, list[i])) then [] else [list[i]]) + Matching(list[..i], f, t, mask)
  {
    hide Mismatched;
    assert list[..i + 1][..i] == list[..i];
  }

  /** Whose list each spawn is on. */
  ghost function Owners(at: map<Spawn, Place>): map<Spawn, Alg> {
    map s | s in at :: if at[s].InUsers? then at[s].alg else 0
  }

  ghost function GraphOf(us: Lists, inst: map<Spawn, Alg>, alg: Alg, nalg: Option<Alg>, top: seq<Spawn>, at: map<Spawn, Place>): Graph {
    var us1 := us[alg := top];
    Graph(if nalg.Some? then us1[nalg.value := []] else us1, inst, alg, nalg, Owners(at))
  }

  /** All spawns are on the lists of their algorithms. */
  ghost predicate AllListed(at: map<Spawn, Place>, us: Lists, algs: map<Spawn, Option<Alg>>) {
    && UsersHold(at, us)
    && (forall s | s in at :: at[s].InUsers? && AlgOf(algs, s) == Some(at[s].alg))
  }

  lemma GraphSees(us: Lists, inst: map<Spawn, Alg>, alg: Alg, nalg: Option<Alg>, top: seq<Spawn>, at: map<Spawn, Place>)
    requires UsersHold(at, us) && (forall s | s in at :: at[s].InUsers?) && nalg != Some(alg)
    requires forall s | s in top :: s in Users(us, alg)
    ensures var g := GraphOf(us, inst, alg, nalg, top, at); Sees(g, us) && Users(g.us, alg) == top
  {
    var g := GraphOf(us, inst, alg, nalg, top, at);
    forall a: Alg, s: Spawn | s in Users(g.us, a) ensures Own(g, s) == a {
      assert Holds(at, Users(us, a), InUsers(a));
    }
  }

  /** Selecting leaves everything else where it was. */
  ghost predicate SelectedFrom(at0: map<Spawn, Place>, at: map<Spawn, Place>, alg: Alg, top: seq<Spawn>) {
    && at.Keys == at0.Keys
    && (forall s | s in at :: at[s] == if s in top then OnTop else at0[s])
  }

  lemma SelectedUntouched(g: Graph, at0: map<Spawn, Place>, at: map<Spawn, Place>, us: Lists, algs: map<Spawn, Option<Alg>>, top: seq<Spawn>)
    requires AllListed(at0, us, algs) && SelectedFrom(at0, at, g.alg, top) && g.own == Owners(at0) && Users(g.us, g.alg) == top
    requires forall s | s in top :: s in Users(us, g.alg)
    ensures Untouched(g, at, algs)
  {
    forall s | s in at && (at[s].InUsers? || at[s].OnTop?)
      ensures AlgOf(algs, s) == Some(Own(g, s)) && (at[s].InUsers? ==> Own(g, s) == at[s].alg)
              && (at[s].OnTop? ==> Own(g, s) == g.alg && s in Users(g.us, g.alg))
    {
      if s in top {
        assert Holds(at0, Users(us, g.alg), InUsers(g.alg));
      }
    }
  }

  /** A kept spawn goes back to the list of its algorithm. */
  lemma GiveBack(at: map<Spawn, Place>, us: Lists, s: Spawn, a: Alg)
    requires UsersHold(at, us) && s in at && at[s] == Secondary
    ensures UsersHold(at[s := InUsers(a)], us[a := [s] + Users(us, a)])
  {
    hide Holds;
    forall b: Alg ensures Holds(at[s := InUsers(a)], Users(us[a := [s] + Users(us, a)], b), InUsers(b)) {
      assert Holds(at, Users(us, b), InUsers(b));
      if b == a {
        PutFirst(at, Users(us, a), s, InUsers(a));
      } else {
        Elsewhere(at, Users(us, b), s, InUsers(b), InUsers(a));
      }
    }
  }

  /** Where the spawns are once the first i that were passed are settled. */
  ghost predicate SettledTo(at0: map<Spawn, Place>, at: map<Spawn, Place>, algs: map<Spawn, Option<Alg>>, list: seq<Spawn>, i: nat) {
    && i <= |list| && at.Keys == at0.Keys
    && (forall s | s in at :: at[s] == if s in list[..i] && Kept(algs, s) then InUsers(AlgOf(algs, s).value) else at0[s])
  }

  lemma SettledMore(at0: map<Spawn, Place>, at: map<Spawn, Place>, algs: map<Spawn, Option<Alg>>, list: seq<Spawn>, i: nat)
    requires SettledTo(at0, at, algs, list, i) && i < |list| && list[i] in at
    ensures SettledTo(at0, if Kept(algs, list[i]) then at[list[i] := InUsers(AlgOf(algs, list[i]).value)] else at, algs, list, i + 1)
  {
    hide AlgOf;
    assert list[..i + 1] == list[..i] + [list[i]];
  }

  /** s goes back to the list of the instance of t, which is to be removed. */
  ghost predicate BackTo(inst: map<Spawn, Alg>, algs: map<Spawn, Option<Alg>>, s: Spawn, t: Spawn) {
    !Kept(algs, t) && AlgOf(algs, s) == Some(Inst(inst, t))
  }

  /** No spawn that is given back is a user of one that is removed after it. */
  ghost predicate NoneBack(inst: map<Spawn, Alg>, us: Lists, algs: map<Spawn, Option<Alg>>, list: seq<Spawn>) {
    && (forall i | 0 <= i < |list| && !Kept(algs, list[i]) :: Users(us, Inst(inst, list[i])) == [])
    && (forall i, j | 0 <= j < i < |list| :: !BackTo(inst, algs, list[j], list[i]))
  }

  /** Algorithms with the spawns built on them, and which are dead. */
  class Registry {
    const inst: map<Spawn, Alg>
    const flags: map<Alg, bv32>
    const mask: map<Spawn, bv32>
    const templates: set<Alg>  // instances whose template can be held
    var users: Lists
    var algs: map<Spawn, Option<Alg>>
    var dead: set<Alg>
    var hashed: set<Alg>       // instances still on their template's list
    var removed: seq<Alg>      // what the caller will put

    constructor (inst: map<Spawn, Alg>, flags: map<Alg, bv32>, mask: map<Spawn, bv32>, templates: set<Alg>, users: Lists,
                 algs: map<Spawn, Option<Alg>>, hashed: set<Alg>)
      ensures this.inst == inst && this.flags == flags && this.mask == mask && this.templates == templates
      ensures this.users == users && this.algs == algs && this.dead == {} && this.hashed == hashed && this.removed == []
    {
      this.inst, this.flags, this.mask, this.templates, this.users := inst, flags, mask, templates, users;
      this.algs, this.dead, this.hashed, this.removed := algs, {}, hashed, [];
    }

    function Flags(a: Alg): bv32 {
      if a in flags then flags[a] else 0
    }

    /** The flags of an algorithm that spawn s cares about. */
    ghost function Masked(s: Spawn, a: Alg): bv32 {
      Under(Flags(a), MaskOf(mask, s))
    }

    /** The spawns of alg that a new algorithm, or the end of alg, concerns. */
    function Concerned(alg: Alg, nalg: Option<Alg>): seq<Spawn>
      reads this
    {
      Matching(Users(users, alg), Flags(alg), if nalg.Some? then Flags(nalg.value) else Flags(alg), mask)
    }

    /** What the walk for nalg can see. */
    ghost function Seen(alg: Alg, nalg: Option<Alg>, at: map<Spawn, Place>): Graph
      reads this
    {
      GraphOf(users, inst, alg, nalg, Concerned(alg, nalg), at)
    }

    /** The first loop of crypto_remove_spawns moves exactly the spawns whose type matches. */
    method SelectTop(alg: Alg, nalg: Option<Alg>, ghost at0: map<Spawn, Place>)
      returns (top: seq<Spawn>, ghost at: map<Spawn, Place>)
      requires UsersHold(at0, users) && forall s | s in at0 :: at0[s].InUsers?
      modifies `users
      ensures Walking(old(users), inst, alg, users, at, top, [], [])
      ensures top == old(Concerned(alg, nalg)) && SelectedFrom(at0, at, alg, top)
      ensures forall s :: s in top <==> s in Users(old(users), alg) && Masked(s, alg) == Masked(s, if nalg.Some? then nalg.value else alg)
    {
      hide Walking, UsersHold, Mismatched, MaskOf, Matching, SelectedFrom, Users, Under;
      StartWalking(users, inst, alg, at0);
      ghost var us0 := users;
      var f, newType := Flags(alg), if nalg.Some? then Flags(nalg.value) else Flags(alg);
      var list := Users(users, alg);
      var rest: seq<Spawn> := [];
      top, at := [], at0;
      var i := 0;
      SameUsers(us0, inst, alg, at0);
      ListOf(users, alg, list);
      users := users[alg := list];
      SelectedNone(at0, alg);
      assert list[..0] == [] && rest + list[0..] == list;
      MatchingNone(f, newType, mask);
      while i < |list|
        invariant i <= |list| && Users(users, alg) == rest + list[i..]
        invariant Walking(us0, inst, alg, users, at, top, [], [])
        invariant top == Matching(list[..i], f, newType, mask) && SelectedFrom(at0, at, alg, top)
      {
        var s := list[i];
        NextInList(rest, list, i);
        MatchingMore(list, i, f, newType, mask);
        if Mismatched(f, newType, MaskOf(mask, s)) {
          rest := rest + [s];
        } else {
          Selected(us0, inst, alg, users, at, top, rest, s, list[i+1..]);
          SelectedHere(us0, inst, alg, users, at, top, rest, s, list[i+1..]);
          SelectedMore(at0, at, alg, top, s);
          ListOf(users, alg, rest + list[i+1..]);
          users := users[alg := rest + list[i+1..]];
          top, at := [s] + top, at[s := OnTop];
        }
        i := i + 1;
      }
      assert list[..|list|] == list;
      MatchingUnder(list, f, newType, mask);
    }

    /** crypto_remove_spawn: the instance is dead, and goes from its template's list to the
        caller's if it was alive, is still there and its template can be held; only then does the
        BUG_ON look at its users. */
    method RemoveSpawn(s: Spawn) returns (bug: bool)
      modifies `dead, `hashed, `removed
      ensures dead == old(dead) + {Inst(inst, s)}
      ensures var a := Inst(inst, s);
              var goes := a !in old(dead) && a in old(hashed) && a in templates;
              && hashed == old(hashed) - (if goes then {a} else {})
              && removed == (if goes then [a] else []) + old(removed)
              && (bug <==> goes && Users(users, a) != [])
    {
      var a := Inst(inst, s);
      if a in dead {
        return false;
      }
      dead := dead + {a};
      if a !in hashed {
        return false;
      }
      if a !in templates {
        return false;
      }
      removed := [a] + removed;
      hashed := hashed - {a};
      return Users(users, a) != [];
    }

    /** The last loop of crypto_remove_spawns: kept spawns go back to their algorithms' lists, and
        the instances of the others die. */
    method Settle(list: seq<Spawn>, ghost at0: map<Spawn, Place>) returns (bug: bool, ghost at: map<Spawn, Place>)
      requires UsersHold(at0, users) && Holds(at0, list, Secondary)
      modifies `users, `dead, `hashed, `removed
      ensures bug ==> !NoneBack(inst, old(users), algs, list)
      ensures !bug ==> UsersHold(at, users) && SettledTo(at0, at, algs, list, |list|)
      ensures !bug ==> forall b: Alg :: b in dead <==> b in old(dead) || exists s :: s in list && !Kept(algs, s) && Inst(inst, s) == b
      ensures !bug ==> forall b: Alg :: Users(users, b) == Users(old(users), b) || exists s :: s in list && AlgOf(algs, s) == Some(b)
    {
      hide UsersHold, Holds, SettledTo, NoneBack, AlgOf, Users;
      at, bug := at0, false;
      var i := 0;
      SettledNone(at0, algs, list);
      while i < |list|
        invariant i <= |list| && UsersHold(at, users) && SettledTo(at0, at, algs, list, i)
        invariant forall b: Alg :: b in dead <==> b in old(dead) || exists j :: 0 <= j < i && !Kept(algs, list[j]) && Inst(inst, list[j]) == b
        invariant forall b: Alg :: Users(users, b) == Users(old(users), b) || exists j :: 0 <= j < i && AlgOf(algs, list[j]) == Some(b)
      {
        var spawn := list[i];
        NotYet(at0, at, algs, list, i);
        SettledMore(at0, at, algs, list, i);
        if Kept(algs, spawn) {
          var a := AlgOf(algs, spawn).value;
          GiveBack(at, users, spawn, a);
          ListOf(users, a, [spawn] + Users(users, a));
          users := users[a := [spawn] + Users(users, a)];
          at := at[spawn := InUsers(a)];
        } else {
          bug := RemoveSpawn(spawn);
          if bug {
            BackEarly(inst, old(users), users, algs, list, i);
            return;
          }
        }
        i := i + 1;
      }
    }

    /** crypto_remove_spawns.  Of the spawns passed, those kept are on their lists again with
        spawn->alg as it was, all of them lead to the new algorithm, and the instances of the others
        are dead; no other spawn moves.  If no instance that the new algorithm is built on has two
        spawns in the walk, the kept ones are exactly those that lead to it; and where nothing is
        built on itself, only then.  There, too, no BUG_ON fires. */
    method RemoveSpawns(alg: Alg, nalg: Option<Alg>, ghost at: map<Spawn, Place>) returns (bug: bool)
      requires AllListed(at, users, algs) && nalg != Some(alg)
      modifies this
      ensures bug ==> Reaches(old(Seen(alg, nalg, at)).us, inst, alg, alg) || (nalg.Some? && !NoCycle(old(Seen(alg, nalg, at))))
      ensures Reaches(old(Seen(alg, nalg, at)).us, inst, alg, alg) ==> bug
      ensures !bug ==> Settled(old(Seen(alg, nalg, at)), old(users), users, algs, old(dead), dead)
      ensures !bug && OneSpawnEach(old(Seen(alg, nalg, at))) ==> KeptExactly(old(Seen(alg, nalg, at)), algs)
      ensures !bug && NoCycle(old(Seen(alg, nalg, at))) && KeptExactly(old(Seen(alg, nalg, at)), algs) ==> OneSpawnEach(old(Seen(alg, nalg, at)))
    {
      hide Walking, UsersHold, Holds, Reaches, Keeping, Through, Untouched, Sees, AllListed, SelectedFrom, SettledTo, NoneBack,
           Settled, KeptExactly, OneSpawnEach, NoCycle, Matching, Kept, Passed;
      ghost var g := Seen(alg, nalg, at);
      ghost var us0, dead0 := users, dead;
      SeesLists(this.users, inst, alg, nalg, Concerned(alg, nalg), at, algs, Flags(alg), if nalg.Some? then Flags(nalg.value) else Flags(alg), mask);
      var top, at1 := SelectTop(alg, nalg, at);
      SelectedUntouched(g, at, at1, us0, algs, top);
      var us, algs', secondary, b, at2, par := Walk(us0, g, inst, alg, nalg, users, top, algs, at1);
      users, algs := us, algs';
      if b {
        return true;
      }
      KeptIffOneSpawnEach(g, us, secondary, algs, par);
      AlgNotReached(g, us, secondary, algs, par);
      WalkingStack(us0, inst, alg, us, at2, [], [], secondary);
      ghost var at3;
      bug, at3 := Settle(secondary, at2);
      NoneGoBack(g, us, at2, secondary, algs, par);
      if !bug {
        AllSettled(g, us0, us, users, at, at1, at2, at3, secondary, algs, par, dead0, dead);
      }
    }

    /** An algorithm is unregistered: every instance reachable from it, and no other, ends dead,
        with no users left, and all other users lists stay.  The BUG_ON on alg fires exactly when
        alg is reachable from itself, and no other does. */
    method RemoveAllSpawns(alg: Alg, ghost at: map<Spawn, Place>) returns (bug: bool)
      requires AllListed(at, users, algs)
      modifies this
      ensures bug <==> Reaches(old(users), inst, alg, alg)
      ensures !bug ==> forall b: Alg :: b in dead <==> b in old(dead) || Reaches(old(users), inst, alg, b)
      ensures !bug ==> forall b: Alg | b == alg || Reaches(old(users), inst, alg, b) :: Users(users, b) == []
      ensures !bug ==> forall b: Alg | b != alg && !Reaches(old(users), inst, alg, b) :: Users(users, b) == Users(old(users), b)
    {
      hide Reaches, Settled, KeptExactly, OneSpawnEach, NoCycle, AllListed, Matching, Users;
      ghost var g := Seen(alg, None, at);
      ghost var us0, dead0 := users, dead;
      SeesAll(users, inst, alg, Concerned(alg, None), at, algs, Flags(alg), mask);
      bug := RemoveSpawns(alg, None, at);
      if !bug {
        AllRemoved(g, us0, users, algs, dead0, dead);
      }
    }
  }

  lemma SelectedNone(at: map<Spawn, Place>, alg: Alg)
    ensures SelectedFrom(at, at, alg, [])
  {
  }

  lemma SelectedMore(at0: map<Spawn, Place>, at: map<Spawn, Place>, alg: Alg, top: seq<Spawn>, s: Spawn)
    requires SelectedFrom(at0, at, alg, top) && s in at
    ensures SelectedFrom(at0, at[s := OnTop], alg, [s] + top)
  {
  }

  lemma SelectedHere(us0: Lists, inst: map<Spawn, Alg>, alg: Alg, us: Lists, at: map<Spawn, Place>,
                     top: seq<Spawn>, a: seq<Spawn>, s: Spawn, b: seq<Spawn>)
    requires Walking(us0, inst, alg, us, at, top, [], []) && Users(us, alg) == a + [s] + b
    ensures s in at
  {
    hide Reaches, Shrunk, TakenReachable, OthersSame;
    assert (a + [s] + b)[|a|] == s;
    assert Holds(at, Users(us, alg), InUsers(alg));
  }

  lemma NextInList(rest: seq<Spawn>, list: seq<Spawn>, i: nat)
    requires i < |list|
    ensures rest + list[i..] == rest + [list[i]] + list[i + 1..]
  {
  }

  lemma MatchingNone(f: bv32, t: bv32, mask: map<Spawn, bv32>)
    ensures Matching([], f, t, mask) == []
  {
  }

  lemma SettledNone(at: map<Spawn, Place>, algs: map<Spawn, Option<Alg>>, list: seq<Spawn>)
    ensures SettledTo(at, at, algs, list, 0)
  {
  }

  /** The next spawn to settle has not been settled. */
  lemma NotYet(at0: map<Spawn, Place>, at: map<Spawn, Place>, algs: map<Spawn, Option<Alg>>, list: seq<Spawn>, i: nat)
    requires SettledTo(at0, at, algs, list, i) && Holds(at0, list, Secondary) && i < |list|
    ensures list[i] in at && at[list[i]] == Secondary
  {
    assert list[i] in list;
  }

  lemma ListOf(us: Lists, a: Alg, list: seq<Spawn>)
    ensures forall b: Alg :: Users(us[a := list], b) == if b == a then list else Users(us, b)
  {
    forall b: Alg ensures Users(us[a := list], b) == if b == a then list else Users(us, b) {
    }
  }

  lemma BackEarly(inst: map<Spawn, Alg>, us0: Lists, us: Lists, algs: map<Spawn, Option<Alg>>, list: seq<Spawn>, i: nat)
    requires i < |list| && !Kept(algs, list[i]) && Users(us, Inst(inst, list[i])) != []
    requires forall b: Alg :: Users(us, b) == Users(us0, b) || exists j :: 0 <= j < i && AlgOf(algs, list[j]) == Some(b)
    ensures !NoneBack(inst, us0, algs, list)
  {
    hide Users;
    var b := Inst(inst, list[i]);
    if Users(us, b) != Users(us0, b) {
      var j :| 0 <= j < i && AlgOf(algs, list[j]) == Some(b);
      assert BackTo(inst, algs, list[j], list[i]);
    }
  }

  /** A spawn is on the list it was on, unless it was passed and not kept. */
  ghost predicate Stays(g: Graph, us0: Lists, us: Lists, algs: map<Spawn, Option<Alg>>, b: Alg, s: Spawn) {
    s in Users(us, b) <==> s in Users(us0, b) && (Passed(g, s) ==> Kept(algs, s))
  }

  /** A spawn of instance b is kept. */
  ghost predicate KeptFor(g: Graph, algs: map<Spawn, Option<Alg>>, b: Alg) {
    exists p :: Passed(g, p) && Inst(g.inst, p) == b && Kept(algs, p)
  }

  /** What crypto_remove_spawns has done to the lists and the instances. */
  ghost predicate Settled(g: Graph, us0: Lists, us: Lists, algs: map<Spawn, Option<Alg>>, dead0: set<Alg>, dead: set<Alg>) {
    && (forall b: Alg, s: Spawn :: Stays(g, us0, us, algs, b, s))
    && (forall b: Alg :: NoDup(Users(us, b)))
    && (forall s: Spawn | Passed(g, s) :: KeptRightly(g, algs, s))
    && (forall s: Spawn | Passed(g, s) && Kept(algs, s) && Own(g, s) != g.alg :: KeptFor(g, algs, Own(g, s)))
    && (forall b: Alg :: b in dead <==> b in dead0 || exists s :: Passed(g, s) && !Kept(algs, s) && Inst(g.inst, s) == b)
    && (forall b: Alg :: Users(us, b) == Users(us0, b) || b == g.alg || Reaches(us0, g.inst, g.alg, b))
  }

  lemma SeesLists(us: Lists, inst: map<Spawn, Alg>, alg: Alg, nalg: Option<Alg>, top: seq<Spawn>, at: map<Spawn, Place>,
                  algs: map<Spawn, Option<Alg>>, f: bv32, t: bv32, mask: map<Spawn, bv32>)
    requires AllListed(at, us, algs) && nalg != Some(alg) && top == Matching(Users(us, alg), f, t, mask)
    ensures UsersHold(at, us) && forall s | s in at :: at[s].InUsers?
    ensures forall s | s in top :: s in Users(us, alg)
    ensures var g := GraphOf(us, inst, alg, nalg, top, at); Sees(g, us) && Users(g.us, alg) == top && g.own == Owners(at)
  {
    hide UsersHold, Matching, Sees;
    forall s | s in top ensures s in Users(us, alg) {
      MatchingIs(Users(us, alg), f, t, mask, s);
    }
    GraphSees(us, inst, alg, nalg, top, at);
  }

  lemma AlgNotReached(g: Graph, us: Lists, secondary: seq<Spawn>, algs: map<Spawn, Option<Alg>>, par: map<Spawn, Spawn>)
    requires Keeping(g, us, [], [], secondary, algs, par) && Through(g, secondary)
    ensures !Reaches(g.us, g.inst, g.alg, g.alg)
  {
    hide Keeping, Through, Reaches, StackPath, AllPassed, Passed;
    WalkComplete(g, us, secondary, algs, par);
    KeepingParts(g, us, [], [], secondary, algs, par);
  }

  /** Users come after the spawns of their instance, so nothing is given back too early. */
  lemma NoneGoBack(g: Graph, us: Lists, at: map<Spawn, Place>, secondary: seq<Spawn>, algs: map<Spawn, Option<Alg>>, par: map<Spawn, Spawn>)
    requires Keeping(g, us, [], [], secondary, algs, par) && Holds(at, secondary, Secondary)
    ensures g.nalg.None? || NoCycle(g) ==> NoneBack(g.inst, us, algs, secondary)
  {
    if g.nalg.None? || NoCycle(g) {
      hide NoCycle, OneSpawnEach, OneParent, ParentsKept, KeptForChild, ParOk, LeadersKept, Reaches;
      forall i | 0 <= i < |secondary| && !Kept(algs, secondary[i]) ensures Users(us, Inst(g.inst, secondary[i])) == [] {
        assert Taken([], secondary, secondary[i]) && KeptRightly(g, algs, secondary[i]);
      }
      forall i, j | 0 <= j < i < |secondary| ensures !BackTo(g.inst, algs, secondary[j], secondary[i]) {
        assert Taken([], secondary, secondary[j]) && KeptRightly(g, algs, secondary[j]) && Passed(g, secondary[j]);
        if NoCycle(g) {
          NotAfter(g, secondary, j, i);
        }
      }
    }
  }

  lemma NotAfter(g: Graph, secondary: seq<Spawn>, j: nat, i: nat)
    requires UsersFirst(g, secondary) && NoDup(secondary) && j < i < |secondary|
    ensures secondary[j] !in Users(g.us, Inst(g.inst, secondary[i]))
  {
    assert secondary[j] !in secondary[i + 1..];
  }

  ghost predicate SubLists(us: Lists, us': Lists) {
    forall a: Alg, s: Spawn | s in Users(us, a) :: s in Users(us', a)
  }

  lemma {:induction false} SubPath(us: Lists, us': Lists, inst: map<Spawn, Alg>, a: Alg, b: Alg, n: nat)
    requires SubLists(us, us') && Path(us, inst, a, b, n)
    ensures Path(us', inst, a, b, n)
    decreases n
  {
    if n > 0 {
      var s :| s in Users(us, a) && Path(us, inst, Inst(inst, s), b, n - 1);
      SubPath(us, us', inst, Inst(inst, s), b, n - 1);
    }
  }

  lemma SubReach(us: Lists, us': Lists, inst: map<Spawn, Alg>, a: Alg, b: Alg)
    requires SubLists(us, us') && Reaches(us, inst, a, b)
    ensures Reaches(us', inst, a, b)
  {
    var n: nat :| n > 0 && Path(us, inst, a, b, n);
    SubPath(us, us', inst, a, b, n);
  }

  /** Where each spawn is at the end. */
  lemma SettledAt(g: Graph, us0: Lists, us: Lists, at: map<Spawn, Place>, at2: map<Spawn, Place>, at3: map<Spawn, Place>,
                  secondary: seq<Spawn>, algs: map<Spawn, Option<Alg>>, users: Lists, b: Alg, s: Spawn)
    requires UsersHold(at, us0) && (forall x | x in at :: at[x].InUsers?) && g.own == Owners(at) && at2.Keys == at.Keys
    requires Walking(us0, g.inst, g.alg, us, at2, [], [], secondary) && Untouched(g, at2, algs)
    requires UsersHold(at3, users) && SettledTo(at2, at3, algs, secondary, |secondary|)
    requires s in secondary && Kept(algs, s) ==> AlgOf(algs, s).Some? && AlgOf(algs, s) == Some(Own(g, s))
    ensures s in Users(users, b) <==> s in Users(us0, b) && (s in secondary ==> Kept(algs, s))
  {
    hide *;
    OnList(at3, users, b, s);
    OnList(at, us0, b, s);
    OnlyPassedOrListed(g, us0, us, at2, secondary, algs, s);
    OwnerIs(g, at, s);
    SettledEnd(at2, at3, algs, secondary, s);
  }

  lemma OnList(at: map<Spawn, Place>, us: Lists, b: Alg, s: Spawn)
    requires UsersHold(at, us)
    ensures s in Users(us, b) <==> s in at && at[s] == InUsers(b)
  {
    assert Holds(at, Users(us, b), InUsers(b));
  }

  lemma OwnerIs(g: Graph, at: map<Spawn, Place>, s: Spawn)
    requires g.own == Owners(at) && forall x | x in at :: at[x].InUsers?
    ensures s in at ==> at[s] == InUsers(Own(g, s))
  {
  }

  lemma OnlyPassedOrListed(g: Graph, us0: Lists, us: Lists, at: map<Spawn, Place>, secondary: seq<Spawn>, algs: map<Spawn, Option<Alg>>, s: Spawn)
    requires Walking(us0, g.inst, g.alg, us, at, [], [], secondary) && Untouched(g, at, algs)
    ensures s in at ==> at[s] == if s in secondary then Secondary else InUsers(Own(g, s))
    ensures s in secondary ==> s in at
  {
    hide Shrunk, TakenReachable, OthersSame, Users, UsersHold;
    var none: seq<Spawn> := [];
    assert Holds(at, none, OnTop) && Holds(at, none, OnStack) && s !in none;
  }

  lemma SettledEnd(at0: map<Spawn, Place>, at: map<Spawn, Place>, algs: map<Spawn, Option<Alg>>, list: seq<Spawn>, s: Spawn)
    requires SettledTo(at0, at, algs, list, |list|)
    ensures at.Keys == at0.Keys
    ensures s in at ==> at[s] == if s in list && Kept(algs, s) then InUsers(AlgOf(algs, s).value) else at0[s]
  {
    assert list[..|list|] == list;
  }

  lemma AllSettled(g: Graph, us0: Lists, us: Lists, users: Lists, at: map<Spawn, Place>, at1: map<Spawn, Place>, at2: map<Spawn, Place>,
                   at3: map<Spawn, Place>, secondary: seq<Spawn>, algs: map<Spawn, Option<Alg>>, par: map<Spawn, Spawn>, dead0: set<Alg>, dead: set<Alg>)
    requires UsersHold(at, us0) && (forall x | x in at :: at[x].InUsers?) && g.own == Owners(at) && at2.Keys == at1.Keys
    requires SelectedFrom(at, at1, g.alg, Users(g.us, g.alg)) && Sees(g, us0) && forall s | s in Users(g.us, g.alg) :: s in Users(us0, g.alg)
    requires Walking(us0, g.inst, g.alg, us, at2, [], [], secondary) && Untouched(g, at2, algs)
    requires Keeping(g, us, [], [], secondary, algs, par) && Through(g, secondary)
    requires UsersHold(at3, users) && SettledTo(at2, at3, algs, secondary, |secondary|)
    requires forall b: Alg :: b in dead <==> b in dead0 || exists s :: s in secondary && !Kept(algs, s) && Inst(g.inst, s) == b
    requires forall b: Alg :: Users(users, b) == Users(us, b) || exists s :: s in secondary && AlgOf(algs, s) == Some(b)
    ensures Settled(g, us0, users, algs, dead0, dead)
  {
    hide UsersHold, Walking, Keeping, Through, Untouched, SettledTo, Passed, Reaches, Sees, Users, AlgOf, Leads;
    WalkComplete(g, us, secondary, algs, par);
    forall s | s in secondary ensures KeptRightly(g, algs, s) {
      SecondaryRightly(g, us, secondary, algs, par, s);
    }
    forall b: Alg, s: Spawn ensures Stays(g, us0, users, algs, b, s) {
      SettledAt(g, us0, us, at, at2, at3, secondary, algs, users, b, s);
    }
    forall b: Alg ensures b in dead <==> b in dead0 || exists s :: Passed(g, s) && !Kept(algs, s) && Inst(g.inst, s) == b {
      if s :| s in secondary && !Kept(algs, s) && Inst(g.inst, s) == b {
        assert Passed(g, s);
      }
    }
    forall s: Spawn | Passed(g, s) && Kept(algs, s) && Own(g, s) != g.alg ensures KeptFor(g, algs, Own(g, s)) {
      ParentKept(g, us, secondary, algs, par, s);
    }
    forall b: Alg ensures NoDup(Users(users, b)) {
      ListsNoDup(at3, users, b);
    }
    forall b: Alg ensures Users(users, b) == Users(us0, b) || b == g.alg || Reaches(us0, g.inst, g.alg, b) {
      OthersAreSame(us0, g.inst, g.alg, us, at2, secondary, b);
      if s :| s in secondary && AlgOf(algs, s) == Some(b) {
        OwnerReached(g, us0, s);
      }
    }
  }

  lemma SecondaryRightly(g: Graph, us: Lists, secondary: seq<Spawn>, algs: map<Spawn, Option<Alg>>, par: map<Spawn, Spawn>, s: Spawn)
    requires Keeping(g, us, [], [], secondary, algs, par) && s in secondary
    ensures KeptRightly(g, algs, s)
  {
    hide NoCycle, OneSpawnEach, OneParent, ParentsKept, KeptForChild, ParOk, LeadersKept, Leads, Passed, UsersFirst;
    assert Taken([], secondary, s);
  }

  lemma ParentKept(g: Graph, us: Lists, secondary: seq<Spawn>, algs: map<Spawn, Option<Alg>>, par: map<Spawn, Spawn>, s: Spawn)
    requires Keeping(g, us, [], [], secondary, algs, par) && s in secondary && Kept(algs, s) && Own(g, s) != g.alg
    ensures KeptFor(g, algs, Own(g, s))
  {
    hide NoCycle, OneSpawnEach, OneParent, AllRightly, KeptForChild, ParOk, LeadersKept, Passed, UsersFirst, AlgOf;
    assert KeptAbove(g, [], secondary, algs, Own(g, s));
    var p :| Taken([], secondary, p) && Inst(g.inst, p) == Own(g, s) && Kept(algs, p);
    assert Passed(g, p);
  }

  lemma ListsNoDup(at: map<Spawn, Place>, us: Lists, b: Alg)
    requires UsersHold(at, us)
    ensures NoDup(Users(us, b))
  {
    assert Holds(at, Users(us, b), InUsers(b));
  }

  lemma OthersAreSame(us0: Lists, inst: map<Spawn, Alg>, alg: Alg, us: Lists, at: map<Spawn, Place>, secondary: seq<Spawn>, b: Alg)
    requires Walking(us0, inst, alg, us, at, [], [], secondary)
    ensures Users(us, b) == Users(us0, b) || b == alg || Reaches(us0, inst, alg, b)
  {
  }

  lemma OwnerReached(g: Graph, us0: Lists, s: Spawn)
    requires Passed(g, s) && Sees(g, us0) && forall x | x in Users(g.us, g.alg) :: x in Users(us0, g.alg)
    ensures Own(g, s) == g.alg || Reaches(us0, g.inst, g.alg, Own(g, s))
  {
    hide Reaches;
    if Own(g, s) != g.alg {
      assert SubLists(g.us, us0);
      SubReach(g.us, us0, g.inst, g.alg, Own(g, s));
    }
  }

  // ---------------------------------------------------------------------------
  // Who dies
  // ---------------------------------------------------------------------------

  /** What is reached is what has a spawn in the walk. */
  lemma ReachedIffPassed(g: Graph, b: Alg)
    requires WellOwned(g)
    ensures Reaches(g.us, g.inst, g.alg, b) <==> exists s :: Passed(g, s) && Inst(g.inst, s) == b
  {
    hide Reaches;
    if Reaches(g.us, g.inst, g.alg, b) {
      var c, s := LastOfPath(g.us, g.inst, g.alg, b);
      assert Own(g, s) == c;
    }
    if s :| Passed(g, s) && Inst(g.inst, s) == b {
      PassedOn(g, s);
    }
  }

  /** Where exactly what leads to the new algorithm is kept, exactly the other instances that can be
      reached die. */
  lemma DeadExactly(g: Graph, us0: Lists, us: Lists, algs: map<Spawn, Option<Alg>>, dead0: set<Alg>, dead: set<Alg>, b: Alg)
    requires WellOwned(g) && Settled(g, us0, us, algs, dead0, dead) && KeptExactly(g, algs)
    ensures b in dead <==> b in dead0 || (Reaches(g.us, g.inst, g.alg, b) && !Leads(g, b))
  {
    hide Reaches, WellOwned, Passed, Leads, AlgOf, Users;
    ReachedIffPassed(g, b);
  }

  lemma SeesAll(us: Lists, inst: map<Spawn, Alg>, alg: Alg, top: seq<Spawn>, at: map<Spawn, Place>,
                algs: map<Spawn, Option<Alg>>, f: bv32, mask: map<Spawn, bv32>)
    requires AllListed(at, us, algs) && top == Matching(Users(us, alg), f, f, mask)
    ensures var g := GraphOf(us, inst, alg, None, top, at);
            WellOwned(g) && SameMembers(us, g.us) && forall b: Alg :: Reaches(us, inst, alg, b) <==> Reaches(g.us, inst, alg, b)
  {
    hide UsersHold, Matching, WellOwned, Reaches;
    var g := GraphOf(us, inst, alg, None, top, at);
    SeesLists(us, inst, alg, None, top, at, algs, f, f, mask);
    forall s ensures s in top <==> s in Users(us, alg) {
      MatchingIs(Users(us, alg), f, f, mask, s);
      XorSame(f, MaskOf(mask, s));
    }
    assert SameMembers(us, g.us);
    forall b: Alg ensures Reaches(us, inst, alg, b) <==> Reaches(g.us, inst, alg, b) {
      SameReach(us, g.us, inst, alg, b);
    }
  }

  lemma AllRemoved(g: Graph, us0: Lists, us: Lists, algs: map<Spawn, Option<Alg>>, dead0: set<Alg>, dead: set<Alg>)
    requires WellOwned(g) && SameMembers(us0, g.us) && g.nalg.None? && Settled(g, us0, us, algs, dead0, dead)
    requires forall b: Alg :: Reaches(us0, g.inst, g.alg, b) <==> Reaches(g.us, g.inst, g.alg, b)
    ensures forall b: Alg :: b in dead <==> b in dead0 || Reaches(us0, g.inst, g.alg, b)
    ensures forall b: Alg | b == g.alg || Reaches(us0, g.inst, g.alg, b) :: Users(us, b) == []
    ensures forall b: Alg | b != g.alg && !Reaches(us0, g.inst, g.alg, b) :: Users(us, b) == Users(us0, b)
  {
    hide Reaches, Users, AlgOf, WellOwned, Passed, Kept;
    forall s: Spawn | Passed(g, s) ensures !Kept(algs, s) {
    }
    forall b: Alg ensures b in dead <==> b in dead0 || Reaches(us0, g.inst, g.alg, b) {
      ReachedIffPassed(g, b);
    }
    forall b: Alg | b == g.alg || Reaches(us0, g.inst, g.alg, b) ensures Users(us, b) == [] {
      forall s ensures s !in Users(us, b) {
        if s in Users(us, b) {
          assert Stays(g, us0, us, algs, b, s);
          UserPassed(g, b, s);
        }
      }
      NoMembers(Users(us, b));
    }
  }

  lemma NoMembers(list: seq<Spawn>)
    ensures list == [] || exists s :: s in list
  {
    if list != [] {
      assert list[0] in list;
    }
  }

  lemma UserPassed(g: Graph, b: Alg, s: Spawn)
    requires WellOwned(g) && s in Users(g.us, b) && (b == g.alg || Reaches(g.us, g.inst, g.alg, b))
    ensures Passed(g, s)
  {
  }

  // ---------------------------------------------------------------------------
  // An instance with two spawns
  // ---------------------------------------------------------------------------

  /** Every instance has a higher number than what it is built on. */
  ghost predicate Ranked(us: Lists, inst: map<Spawn, Alg>) {
    forall a: Alg, s: Spawn | s in Users(us, a) :: a < Inst(inst, s)
  }

  lemma {:induction false} RankedPath(us: Lists, inst: map<Spawn, Alg>, a: Alg, b: Alg, n: nat)
    requires Ranked(us, inst) && Path(us, inst, a, b, n)
    ensures a + n <= b
    decreases n
  {
    if n > 0 {
      var s :| s in Users(us, a) && Path(us, inst, Inst(inst, s), b, n - 1);
      RankedPath(us, inst, Inst(inst, s), b, n - 1);
    }
  }

  /** What is built in some order is not built on itself. */
  lemma RankedNoCycle(g: Graph)
    requires Ranked(g.us, g.inst)
    ensures NoCycle(g)
  {
    forall b: Alg ensures !Reaches(g.us, g.inst, b, b) {
      if n: nat :| n > 0 && Path(g.us, g.inst, b, b, n) {
        RankedPath(g.us, g.inst, b, b, n);
      }
    }
  }

  const OLD: Alg := 0
  const MIDDLE: Alg := 1
  const NEW: Alg := 2

  // MIDDLE has two spawns on OLD, and NEW is built on MIDDLE.
  const INSTANCES: map<Spawn, Alg> := map[10 := MIDDLE, 11 := MIDDLE, 12 := NEW]
  const LISTS: Lists := map[OLD := [10, 11], MIDDLE := [12]]
  const ALGS: map<Spawn, Option<Alg>> := map[10 := Some(OLD), 11 := Some(OLD), 12 := Some(MIDDLE)]
  const PLACES: map<Spawn, Place> := map[10 := InUsers(OLD), 11 := InUsers(OLD), 12 := InUsers(MIDDLE)]

  lemma ListsOk()
    ensures AllListed(PLACES, LISTS, ALGS)
  {
    forall a: Alg ensures Holds(PLACES, Users(LISTS, a), InUsers(a)) {
      assert Users(LISTS, a) == if a == OLD then [10, 11] else if a == MIDDLE then [12] else [];
      forall s ensures s in Users(LISTS, a) <==> s in PLACES && PLACES[s] == InUsers(a) {
      }
    }
  }

  /** The graph of that walk. */
  lemma TwoSpawnsGraph(g: Graph, top: seq<Spawn>)
    requires g == GraphOf(LISTS, INSTANCES, OLD, Some(NEW), top, PLACES) && forall s :: s in top <==> s == 10 || s == 11
    ensures NoCycle(g) && !OneSpawnEach(g)
    ensures forall s :: Passed(g, s) <==> s == 10 || s == 11 || s == 12
    ensures Own(g, 12) == MIDDLE
  {
    hide Reaches, NoCycle;
    assert Users(g.us, OLD) == top && Users(g.us, MIDDLE) == [12] && forall a: Alg | a > 1 :: Users(g.us, a) == [];
    RankedNoCycle(g);
    assert 10 in top && 12 in Users(g.us, MIDDLE);
    ReachesOne(g.us, g.inst, OLD, 10);
    ReachesOne(g.us, g.inst, MIDDLE, 12);
    assert Passed(g, 10) && Passed(g, 11) && Leads(g, MIDDLE);
  }

  /** When an instance has two spawns in the walk the code loses it: it ends dead, though the walk
      keeps one of its spawns, and with it the new algorithm that is built on it. */
  method TwoSpawnsLoseInstance() returns (dead: set<Alg>, users: Lists)
    ensures MIDDLE in dead && 12 in Users(users, MIDDLE)
    ensures 10 in Users(users, OLD) <==> 11 !in Users(users, OLD)
  {
    hide AllListed, Passed, OneSpawnEach, NoCycle, Reaches, Leads, Users, AlgOf, Matching, Settled;
    ListsOk();
    var r := new Registry(INSTANCES, map[], map[], {}, LISTS, ALGS, {});
    ghost var g := r.Seen(OLD, Some(NEW), PLACES);
    ConcernsBoth(r.Concerned(OLD, Some(NEW)));
    TwoSpawnsGraph(g, r.Concerned(OLD, Some(NEW)));
    var bug := r.RemoveSpawns(OLD, Some(NEW), PLACES);
    assert !bug by { NoCycleNotReached(g); }
    OneIsLost(g, r.users, r.algs, r.dead);
    dead, users := r.dead, r.users;
  }

  lemma ConcernsBoth(top: seq<Spawn>)
    requires top == Matching(Users(LISTS, OLD), 0, 0, map[])
    ensures forall s :: s in top <==> s == 10 || s == 11
  {
    hide Matching, Mismatched;
    forall s ensures s in top <==> s == 10 || s == 11 {
      MatchingIs(Users(LISTS, OLD), 0, 0, map[], s);
      XorSame(0, MaskOf(map[], s));
    }
  }

  lemma NoCycleNotReached(g: Graph)
    requires NoCycle(g)
    ensures !Reaches(g.us, g.inst, g.alg, g.alg)
  {
    hide Reaches;
  }

  lemma OneIsLost(g: Graph, us: Lists, algs: map<Spawn, Option<Alg>>, dead: set<Alg>)
    requires g.inst == INSTANCES && g.alg == OLD && g.nalg == Some(NEW) && Settled(g, LISTS, us, algs, {}, dead)
    requires (forall s :: Passed(g, s) <==> s == 10 || s == 11 || s == 12) && Own(g, 12) == MIDDLE
    requires !KeptExactly(g, algs)
    ensures MIDDLE in dead && 12 in Users(us, MIDDLE)
    ensures 10 in Users(us, OLD) <==> 11 !in Users(us, OLD)
  {
    hide Passed, AlgOf, Reaches;
    assert KeptRightly(g, algs, 12) && KeptFor(g, algs, MIDDLE);
    var s :| Passed(g, s) && (Kept(algs, s) != Leads(g, Inst(g.inst, s)));
    assert KeptRightly(g, algs, s);
    assert Stays(g, LISTS, us, algs, OLD, 10) && Stays(g, LISTS, us, algs, OLD, 11) && Stays(g, LISTS, us, algs, MIDDLE, 12);
  }
}
