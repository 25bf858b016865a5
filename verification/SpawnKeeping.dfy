/** Which spawns crypto_remove_spawns keeps for a new algorithm, and which it loses. */
module SpawnKeeping {
  import opened Common
  import opened Spawns

  /** What the walk can see: `us` are the lists it goes through, those of alg restricted to the
      selected spawns and that of the new algorithm to none; `own` says on whose list a spawn is. */
  datatype Graph = Graph(us: Lists, inst: map<Spawn, Alg>, alg: Alg, nalg: Option<Alg>, own: map<Spawn, Alg>)

  function Own(g: Graph, s: Spawn): Alg {
    if s in g.own then g.own[s] else g.alg
  }

  predicate IsNew(g: Graph, b: Alg) {
    g.nalg == Some(b)
  }

  /** The new algorithm is b or built on it. */
  ghost predicate Leads(g: Graph, b: Alg) {
    g.nalg.Some? && (b == g.nalg.value || Reaches(g.us, g.inst, b, g.nalg.value))
  }

  /** The spawns the walk passes. */
  ghost predicate Passed(g: Graph, s: Spawn) {
    s in Users(g.us, Own(g, s)) && (Own(g, s) == g.alg || Reaches(g.us, g.inst, g.alg, Own(g, s)))
  }

  ghost predicate WellOwned(g: Graph) {
    && (forall a: Alg, s: Spawn | s in Users(g.us, a) :: Own(g, s) == a)
    && (g.nalg.Some? ==> g.nalg.value != g.alg && Users(g.us, g.nalg.value) == [])
  }

  /** No instance that the new algorithm is built on has two spawns in the walk. */
  ghost predicate OneSpawnEach(g: Graph) {
    forall s: Spawn, t: Spawn | Passed(g, s) && Passed(g, t) && s != t && Inst(g.inst, s) == Inst(g.inst, t) ::
      IsNew(g, Inst(g.inst, s)) || !Leads(g, Inst(g.inst, s))
  }

  /** No algorithm is built on itself. */
  ghost predicate NoCycle(g: Graph) {
    forall b: Alg :: !Reaches(g.us, g.inst, b, b)
  }

  /** spawn->alg */
  function AlgOf(algs: map<Spawn, Option<Alg>>, s: Spawn): Option<Alg> {
    if s in algs then algs[s] else None
  }

  predicate Kept(algs: map<Spawn, Option<Alg>>, s: Spawn) {
    AlgOf(algs, s).Some?
  }

  /** Taking up a spawn clears spawn->alg, unless its instance is the new algorithm. */
  function AfterTake(g: Graph, algs: map<Spawn, Option<Alg>>, s: Spawn): map<Spawn, Option<Alg>> {
    if IsNew(g, Inst(g.inst, s)) then algs else algs[s := None]
  }

  /** The first step of crypto_more_spawns: a kept spawn keeps the one below it on the stack. */
  function KeepBelow(algs: map<Spawn, Option<Alg>>, inst: map<Spawn, Alg>, alg: Alg, stack: seq<Spawn>): map<Spawn, Option<Alg>> {
    if |stack| > 1 && AlgOf(algs, stack[0]).Some? && AlgOf(algs, stack[1]).None? then
      algs[stack[1] := Some(if |stack| == 2 then alg else Inst(inst, stack[2]))]
    else algs
  }

  // ---------------------------------------------------------------------------
  // Leading to the new algorithm
  // ---------------------------------------------------------------------------

  lemma LeadsBack(g: Graph, b: Alg, c: Spawn)
    requires c in Users(g.us, b) && Leads(g, Inst(g.inst, c))
    ensures Leads(g, b)
  {
    hide Reaches;
    ReachesFirst(g.us, g.inst, b, g.nalg.value, c);
  }

  lemma LeadsOn(g: Graph, b: Alg) returns (c: Spawn)
    requires Leads(g, b) && !IsNew(g, b)
    ensures c in Users(g.us, b) && Leads(g, Inst(g.inst, c))
  {
    hide Reaches;
    c := FirstOfPath(g.us, g.inst, b, g.nalg.value);
  }

  // ---------------------------------------------------------------------------
  // What the walk keeps true
  // ---------------------------------------------------------------------------

  ghost predicate Taken(stack: seq<Spawn>, secondary: seq<Spawn>, s: Spawn) {
    s in stack || s in secondary
  }

  /** s is on the list of the instance of p, which is below it. */
  ghost predicate OnTopOf(g: Graph, par: map<Spawn, Spawn>, s: Spawn, p: Spawn) {
    && Own(g, s) == Inst(g.inst, p)
    && s in par && par[s] == p
    && !IsNew(g, Inst(g.inst, p))
  }

  /** The stack is a path from alg; `par` is the spawn below each one. */
  ghost predicate StackPath(g: Graph, stack: seq<Spawn>, par: map<Spawn, Spawn>) {
    && (stack != [] ==> Own(g, stack[|stack| - 1]) == g.alg)
    && (forall i, j | 0 <= i && j == i + 1 < |stack| :: OnTopOf(g, par, stack[i], stack[j]))
  }

  ghost predicate AllPassed(g: Graph, stack: seq<Spawn>, secondary: seq<Spawn>) {
    forall s | Taken(stack, secondary, s) :: Passed(g, s) && Inst(g.inst, s) != g.alg
  }

  /** A spawn is kept for the algorithm it was on, if that leads to the new one, and surely if its
      instance is the new one. */
  ghost predicate KeptRightly(g: Graph, algs: map<Spawn, Option<Alg>>, s: Spawn) {
    && (Kept(algs, s) ==> AlgOf(algs, s) == Some(Own(g, s)) && Leads(g, Inst(g.inst, s)))
    && (IsNew(g, Inst(g.inst, s)) ==> Kept(algs, s))
  }

  ghost predicate AllRightly(g: Graph, stack: seq<Spawn>, secondary: seq<Spawn>, algs: map<Spawn, Option<Alg>>) {
    forall s | Taken(stack, secondary, s) :: KeptRightly(g, algs, s)
  }

  /** Some spawn of alg's instance b is kept. */
  ghost predicate KeptAbove(g: Graph, stack: seq<Spawn>, secondary: seq<Spawn>, algs: map<Spawn, Option<Alg>>, b: Alg) {
    b == g.alg || exists p :: Taken(stack, secondary, p) && Inst(g.inst, p) == b && Kept(algs, p)
  }

  ghost predicate ParentsKept(g: Graph, stack: seq<Spawn>, secondary: seq<Spawn>, algs: map<Spawn, Option<Alg>>) {
    forall c | c in secondary && Kept(algs, c) :: KeptAbove(g, stack, secondary, algs, Own(g, c))
  }

  ghost predicate ParOk(g: Graph, stack: seq<Spawn>, secondary: seq<Spawn>, par: map<Spawn, Spawn>) {
    forall c | c in par :: Taken(stack, secondary, c) && Taken(stack, secondary, par[c]) && Own(g, c) == Inst(g.inst, par[c])
  }

  ghost predicate HasChild(par: map<Spawn, Spawn>, p: Spawn) {
    exists c :: c in par && par[c] == p
  }

  /** A spawn other than the new algorithm's is kept only for one taken up from above it. */
  ghost predicate KeptForChild(g: Graph, stack: seq<Spawn>, secondary: seq<Spawn>, algs: map<Spawn, Option<Alg>>, par: map<Spawn, Spawn>) {
    forall p | Taken(stack, secondary, p) && Kept(algs, p) && !IsNew(g, Inst(g.inst, p)) :: HasChild(par, p)
  }

  /** What has been walked past has no users left. */
  ghost predicate Exhausted(g: Graph, us: Lists, secondary: seq<Spawn>) {
    forall s | s in secondary && !IsNew(g, Inst(g.inst, s)) :: Users(us, Inst(g.inst, s)) == []
  }

  ghost predicate TopTaken(g: Graph, top: seq<Spawn>, stack: seq<Spawn>, secondary: seq<Spawn>) {
    forall c | c in Users(g.us, g.alg) :: c in top || Taken(stack, secondary, c)
  }

  ghost predicate LeadersKept(g: Graph, secondary: seq<Spawn>, algs: map<Spawn, Option<Alg>>) {
    forall s | s in secondary && Leads(g, Inst(g.inst, s)) :: Kept(algs, s)
  }

  /** All users of an instance are taken up through one of its spawns. */
  ghost predicate OneParent(g: Graph, par: map<Spawn, Spawn>) {
    forall c, d | c in par && d in par && Own(g, c) == Own(g, d) :: par[c] == par[d]
  }

  /** The users of an instance were walked past before its spawns. */
  ghost predicate UsersFirst(g: Graph, secondary: seq<Spawn>) {
    forall i, c | 0 <= i < |secondary| && c in Users(g.us, Inst(g.inst, secondary[i])) :: c in secondary[i + 1..]
  }

  ghost predicate Keeping(g: Graph, us: Lists, top: seq<Spawn>, stack: seq<Spawn>, secondary: seq<Spawn>,
                          algs: map<Spawn, Option<Alg>>, par: map<Spawn, Spawn>)
  {
    && WellOwned(g)
    && StackPath(g, stack, par)
    && AllPassed(g, stack, secondary)
    && AllRightly(g, stack, secondary, algs)
    && ParentsKept(g, stack, secondary, algs)
    && ParOk(g, stack, secondary, par)
    && KeptForChild(g, stack, secondary, algs, par)
    && Exhausted(g, us, secondary)
    && TopTaken(g, top, stack, secondary)
    && (OneSpawnEach(g) ==> LeadersKept(g, secondary, algs))
    && (NoCycle(g) ==> OneParent(g, par) && UsersFirst(g, secondary))
  }

  // ---------------------------------------------------------------------------
  // A spawn is taken up
  // ---------------------------------------------------------------------------

  /** s comes next: from the list of the instance on the stack, or from the top list. */
  ghost predicate Next(g: Graph, us: Lists, stack: seq<Spawn>, secondary: seq<Spawn>, algs: map<Spawn, Option<Alg>>, s: Spawn) {
    && !Taken(stack, secondary, s)
    && s in Users(g.us, Own(g, s))
    && AlgOf(algs, s) == Some(Own(g, s))
    && Inst(g.inst, s) != g.alg
    && (stack == [] ==> Own(g, s) == g.alg)
    && (stack != [] ==> Own(g, s) == Inst(g.inst, stack[0]) && !IsNew(g, Inst(g.inst, stack[0])) && s in Users(us, Own(g, s)))
  }

  function ParAfter(stack: seq<Spawn>, par: map<Spawn, Spawn>, s: Spawn): map<Spawn, Spawn> {
    if stack == [] then par else par[s := stack[0]]
  }

  lemma TakePath(g: Graph, us: Lists, stack: seq<Spawn>, secondary: seq<Spawn>, algs: map<Spawn, Option<Alg>>, par: map<Spawn, Spawn>, s: Spawn)
    requires StackPath(g, stack, par) && Next(g, us, stack, secondary, algs, s)
    ensures StackPath(g, [s] + stack, ParAfter(stack, par, s))
  {
    hide Users, AlgOf, OnTopOf;
    var stack', par' := [s] + stack, ParAfter(stack, par, s);
    forall i, j | 0 <= i && j == i + 1 < |stack'| ensures OnTopOf(g, par', stack'[i], stack'[j]) {
      if i == 0 {
        FirstOnTop(g, par, s, stack[0]);
      } else {
        assert stack'[i] == stack[i - 1] && stack'[j] == stack[j - 1];
        assert stack[i - 1] in stack;
        StillOnTop(g, par, stack[i - 1], stack[j - 1], s, par');
      }
    }
  }

  lemma FirstOnTop(g: Graph, par: map<Spawn, Spawn>, s: Spawn, p: Spawn)
    requires Own(g, s) == Inst(g.inst, p) && !IsNew(g, Inst(g.inst, p))
    ensures OnTopOf(g, par[s := p], s, p)
  {
  }

  lemma StillOnTop(g: Graph, par: map<Spawn, Spawn>, x: Spawn, p: Spawn, s: Spawn, par': map<Spawn, Spawn>)
    requires OnTopOf(g, par, x, p) && x != s && (par' == par || (s in par' && par' == par[s := par'[s]]))
    ensures OnTopOf(g, par', x, p)
  {
  }

  lemma TakePassed(g: Graph, us: Lists, stack: seq<Spawn>, secondary: seq<Spawn>, algs: map<Spawn, Option<Alg>>, s: Spawn)
    requires AllPassed(g, stack, secondary) && Next(g, us, stack, secondary, algs, s)
    ensures AllPassed(g, [s] + stack, secondary)
  {
    hide Reaches, AlgOf;
    if stack != [] {
      assert Taken(stack, secondary, stack[0]);
      PassedOn(g, stack[0]);
    }
  }

  lemma PassedOn(g: Graph, s: Spawn)
    requires Passed(g, s)
    ensures Reaches(g.us, g.inst, g.alg, Inst(g.inst, s))
  {
    hide Reaches;
    if Own(g, s) == g.alg {
      ReachesOne(g.us, g.inst, g.alg, s);
    } else {
      ReachesMore(g.us, g.inst, g.alg, Own(g, s), s);
    }
  }

  lemma TakeRightly(g: Graph, us: Lists, stack: seq<Spawn>, secondary: seq<Spawn>, algs: map<Spawn, Option<Alg>>, s: Spawn)
    requires AllRightly(g, stack, secondary, algs) && Next(g, us, stack, secondary, algs, s)
    ensures AllRightly(g, [s] + stack, secondary, AfterTake(g, algs, s))
  {
    hide Reaches, Users;
    var algs' := AfterTake(g, algs, s);
    forall x | Taken([s] + stack, secondary, x) ensures KeptRightly(g, algs', x) {
      if x != s {
        assert Taken(stack, secondary, x) && KeptRightly(g, algs, x);
      }
    }
  }

  lemma TakeKept(g: Graph, us: Lists, stack: seq<Spawn>, secondary: seq<Spawn>, algs: map<Spawn, Option<Alg>>, s: Spawn, x: Spawn)
    requires Next(g, us, stack, secondary, algs, s) && Taken(stack, secondary, x)
    ensures AlgOf(AfterTake(g, algs, s), x) == AlgOf(algs, x)
  {
    hide Users;
  }

  lemma TakeParents(g: Graph, us: Lists, stack: seq<Spawn>, secondary: seq<Spawn>, algs: map<Spawn, Option<Alg>>, s: Spawn)
    requires ParentsKept(g, stack, secondary, algs) && Next(g, us, stack, secondary, algs, s)
    ensures ParentsKept(g, [s] + stack, secondary, AfterTake(g, algs, s))
  {
    hide Next, AfterTake, AlgOf;
    var algs' := AfterTake(g, algs, s);
    forall c | c in secondary && Kept(algs', c) ensures KeptAbove(g, [s] + stack, secondary, algs', Own(g, c)) {
      TakeKept(g, us, stack, secondary, algs, s, c);
      assert KeptAbove(g, stack, secondary, algs, Own(g, c));
      if Own(g, c) != g.alg {
        var p :| Taken(stack, secondary, p) && Inst(g.inst, p) == Own(g, c) && Kept(algs, p);
        TakeKept(g, us, stack, secondary, algs, s, p);
        assert Taken([s] + stack, secondary, p);
      }
    }
  }

  lemma TakePar(g: Graph, us: Lists, stack: seq<Spawn>, secondary: seq<Spawn>, algs: map<Spawn, Option<Alg>>, par: map<Spawn, Spawn>, s: Spawn)
    requires ParOk(g, stack, secondary, par) && Next(g, us, stack, secondary, algs, s)
    ensures ParOk(g, [s] + stack, secondary, ParAfter(stack, par, s))
  {
    hide Users, AlgOf;
  }

  lemma TakeChild(g: Graph, us: Lists, stack: seq<Spawn>, secondary: seq<Spawn>, algs: map<Spawn, Option<Alg>>, par: map<Spawn, Spawn>, s: Spawn)
    requires KeptForChild(g, stack, secondary, algs, par) && ParOk(g, stack, secondary, par) && Next(g, us, stack, secondary, algs, s)
    ensures KeptForChild(g, [s] + stack, secondary, AfterTake(g, algs, s), ParAfter(stack, par, s))
  {
    hide Users;
    var algs', par' := AfterTake(g, algs, s), ParAfter(stack, par, s);
    forall p | Taken([s] + stack, secondary, p) && Kept(algs', p) && !IsNew(g, Inst(g.inst, p)) ensures HasChild(par', p) {
      assert p != s;
      assert Taken(stack, secondary, p) && Kept(algs, p);
      var c :| c in par && par[c] == p;
      assert c in par' && par'[c] == p;
    }
  }

  lemma TakeParent(g: Graph, us: Lists, stack: seq<Spawn>, secondary: seq<Spawn>, algs: map<Spawn, Option<Alg>>, par: map<Spawn, Spawn>, s: Spawn)
    requires OneParent(g, par) && ParOk(g, stack, secondary, par) && Next(g, us, stack, secondary, algs, s)
    requires Exhausted(g, us, secondary) && StackPath(g, stack, par) && NoCycle(g) && AllPassed(g, stack, secondary)
    ensures OneParent(g, ParAfter(stack, par, s))
  {
    hide Users, AlgOf, NoCycle, StackPath, AllPassed;
    if stack != [] {
      forall d | d in par && Own(g, d) == Own(g, s) ensures par[d] == stack[0] {
        var q := par[d];
        assert Taken(stack, secondary, q) && Inst(g.inst, q) == Inst(g.inst, stack[0]);
        assert q !in secondary;
        NoRepeat(g, stack, secondary, par, q);
      }
    }
  }

  /** Without cycles no instance is on the stack twice. */
  lemma NoRepeat(g: Graph, stack: seq<Spawn>, secondary: seq<Spawn>, par: map<Spawn, Spawn>, q: Spawn)
    requires StackPath(g, stack, par) && NoCycle(g) && AllPassed(g, stack, secondary)
    requires q in stack && Inst(g.inst, q) == Inst(g.inst, stack[0])
    ensures q == stack[0]
  {
    hide Reaches, StackPath, AllPassed;
    var j :| 0 <= j < |stack| && stack[j] == q;
    if j > 0 {
      PathOfStack(g, stack, secondary, par, 0, j);
    }
  }

  lemma {:induction false} PathOfStack(g: Graph, stack: seq<Spawn>, secondary: seq<Spawn>, par: map<Spawn, Spawn>, i: nat, j: nat)
    requires StackPath(g, stack, par) && AllPassed(g, stack, secondary) && i < j < |stack|
    ensures Reaches(g.us, g.inst, Inst(g.inst, stack[j]), Inst(g.inst, stack[i]))
    decreases j - i
  {
    hide Reaches;
    assert Taken(stack, secondary, stack[i]);
    assert OnTopOf(g, par, stack[i], stack[i + 1]);
    assert stack[i] in Users(g.us, Inst(g.inst, stack[i + 1]));
    if i + 1 == j {
      ReachesOne(g.us, g.inst, Inst(g.inst, stack[j]), stack[i]);
    } else {
      PathOfStack(g, stack, secondary, par, i + 1, j);
      ReachesMore(g.us, g.inst, Inst(g.inst, stack[j]), Inst(g.inst, stack[i + 1]), stack[i]);
    }
  }

  lemma TakeLeaders(g: Graph, us: Lists, stack: seq<Spawn>, secondary: seq<Spawn>, algs: map<Spawn, Option<Alg>>, s: Spawn)
    requires LeadersKept(g, secondary, algs) && Next(g, us, stack, secondary, algs, s)
    ensures LeadersKept(g, secondary, AfterTake(g, algs, s))
  {
    hide Next, AfterTake, AlgOf, Leads;
    var algs' := AfterTake(g, algs, s);
    forall x | x in secondary && Leads(g, Inst(g.inst, x)) ensures Kept(algs', x) {
      TakeKept(g, us, stack, secondary, algs, s, x);
      assert Kept(algs, x);
    }
  }

  lemma TakeTopTaken(g: Graph, top: seq<Spawn>, top': seq<Spawn>, stack: seq<Spawn>, secondary: seq<Spawn>, s: Spawn)
    requires TopTaken(g, top, stack, secondary) && (top' == top || (top != [] && s == top[0] && top' == top[1..]))
    ensures TopTaken(g, top', [s] + stack, secondary)
  {
    hide Users;
    forall c | c in Users(g.us, g.alg) ensures c in top' || Taken([s] + stack, secondary, c) {
      if c in top && c != s {
        assert top' == top || top == [s] + top';
      }
    }
  }

  lemma TakeKeeps(g: Graph, us: Lists, us': Lists, top: seq<Spawn>, top': seq<Spawn>, stack: seq<Spawn>, secondary: seq<Spawn>,
                  algs: map<Spawn, Option<Alg>>, par: map<Spawn, Spawn>, s: Spawn)
    requires Keeping(g, us, top, stack, secondary, algs, par) && Next(g, us, stack, secondary, algs, s)
    requires top' == top || (top != [] && s == top[0] && top' == top[1..])
    requires us' == us || (Users(us, Own(g, s)) != [] && us' == us[Own(g, s) := Users(us, Own(g, s))[1..]])
    ensures Keeping(g, us', top', [s] + stack, secondary, AfterTake(g, algs, s), ParAfter(stack, par, s))
  {
    hide StackPath, AllPassed, AllRightly, ParentsKept, ParOk, KeptForChild, TopTaken, LeadersKept, OneParent, UsersFirst, Next, NoCycle, OneSpawnEach, WellOwned, AfterTake, ParAfter;
    TakePath(g, us, stack, secondary, algs, par, s);
    TakePassed(g, us, stack, secondary, algs, s);
    TakeRightly(g, us, stack, secondary, algs, s);
    TakeParents(g, us, stack, secondary, algs, s);
    TakePar(g, us, stack, secondary, algs, par, s);
    TakeChild(g, us, stack, secondary, algs, par, s);
    TakeTopTaken(g, top, top', stack, secondary, s);
    if OneSpawnEach(g) {
      TakeLeaders(g, us, stack, secondary, algs, s);
    }
    if NoCycle(g) {
      TakeParent(g, us, stack, secondary, algs, par, s);
    }
  }

  // ---------------------------------------------------------------------------
  // The spawn on the stack is done
  // ---------------------------------------------------------------------------

  lemma PopPath(g: Graph, stack: seq<Spawn>, par: map<Spawn, Spawn>)
    requires StackPath(g, stack, par) && stack != []
    ensures StackPath(g, stack[1..], par)
  {
    hide OnTopOf;
    forall i, j | 0 <= i && j == i + 1 < |stack[1..]| ensures OnTopOf(g, par, stack[1..][i], stack[1..][j]) {
      assert stack[1..][i] == stack[i + 1] && stack[1..][j] == stack[j + 1];
    }
  }

  lemma PopTaken(stack: seq<Spawn>, secondary: seq<Spawn>)
    requires stack != []
    ensures forall x :: Taken(stack[1..], [stack[0]] + secondary, x) <==> Taken(stack, secondary, x)
  {
    assert stack == [stack[0]] + stack[1..];
  }

  /** Only the spawn below changes, to one kept for its own algorithm. */
  lemma PopAlgs(g: Graph, stack: seq<Spawn>, par: map<Spawn, Spawn>, algs: map<Spawn, Option<Alg>>, x: Spawn)
    requires StackPath(g, stack, par) && stack != []
    ensures var algs' := KeepBelow(algs, g.inst, g.alg, stack);
            AlgOf(algs', x) == if |stack| > 1 && x == stack[1] && Kept(algs, stack[0]) && !Kept(algs, x) then Some(Own(g, x)) else AlgOf(algs, x)
  {
    if |stack| > 2 {
      assert OnTopOf(g, par, stack[1], stack[2]);
    }
  }

  lemma PopRightly(g: Graph, stack: seq<Spawn>, secondary: seq<Spawn>, algs: map<Spawn, Option<Alg>>, par: map<Spawn, Spawn>)
    requires AllRightly(g, stack, secondary, algs) && StackPath(g, stack, par) && stack != [] && AllPassed(g, stack, secondary)
    ensures AllRightly(g, stack[1..], [stack[0]] + secondary, KeepBelow(algs, g.inst, g.alg, stack))
  {
    hide KeepBelow, Leads, AlgOf;
    PopTaken(stack, secondary);
    var algs' := KeepBelow(algs, g.inst, g.alg, stack);
    forall x | Taken(stack[1..], [stack[0]] + secondary, x) ensures KeptRightly(g, algs', x) {
      PopAlgs(g, stack, par, algs, x);
      assert KeptRightly(g, algs, x);
      if |stack| > 1 && x == stack[1] && Kept(algs, stack[0]) {
        assert Taken(stack, secondary, stack[0]) && KeptRightly(g, algs, stack[0]);
        assert OnTopOf(g, par, stack[0], x);
        LeadsBack(g, Inst(g.inst, x), stack[0]);
      }
    }
  }

  /** No spawn is on the stack twice, or on the stack and done. */
  ghost predicate Apart(stack: seq<Spawn>, secondary: seq<Spawn>) {
    NoDup(stack) && forall x | x in stack :: x !in secondary
  }

  lemma PopParents(g: Graph, stack: seq<Spawn>, secondary: seq<Spawn>, algs: map<Spawn, Option<Alg>>, par: map<Spawn, Spawn>)
    requires ParentsKept(g, stack, secondary, algs) && StackPath(g, stack, par) && stack != [] && Apart(stack, secondary)
    ensures ParentsKept(g, stack[1..], [stack[0]] + secondary, KeepBelow(algs, g.inst, g.alg, stack))
  {
    hide KeepBelow, AlgOf;
    PopTaken(stack, secondary);
    var algs' := KeepBelow(algs, g.inst, g.alg, stack);
    forall x ensures Kept(algs, x) ==> Kept(algs', x) {
      PopAlgs(g, stack, par, algs, x);
    }
    forall c | c in [stack[0]] + secondary && Kept(algs', c)
      ensures KeptAbove(g, stack[1..], [stack[0]] + secondary, algs', Own(g, c))
    {
      PopAlgs(g, stack, par, algs, c);
      assert Kept(algs, c);
      if c == stack[0] {
        if |stack| > 1 {
          assert OnTopOf(g, par, c, stack[1]);
          PopAlgs(g, stack, par, algs, stack[1]);
          assert Taken(stack, secondary, stack[1]) && Kept(algs', stack[1]);
        }
      } else if Own(g, c) != g.alg {
        assert KeptAbove(g, stack, secondary, algs, Own(g, c));
        var p :| Taken(stack, secondary, p) && Inst(g.inst, p) == Own(g, c) && Kept(algs, p);
        assert Taken(stack[1..], [stack[0]] + secondary, p) && Kept(algs', p);
      }
    }
  }

  lemma PopChild(g: Graph, stack: seq<Spawn>, secondary: seq<Spawn>, algs: map<Spawn, Option<Alg>>, par: map<Spawn, Spawn>)
    requires KeptForChild(g, stack, secondary, algs, par) && StackPath(g, stack, par) && stack != []
    ensures KeptForChild(g, stack[1..], [stack[0]] + secondary, KeepBelow(algs, g.inst, g.alg, stack), par)
  {
    hide KeepBelow, AlgOf;
    PopTaken(stack, secondary);
    var algs' := KeepBelow(algs, g.inst, g.alg, stack);
    forall p | Taken(stack[1..], [stack[0]] + secondary, p) && Kept(algs', p) && !IsNew(g, Inst(g.inst, p)) ensures HasChild(par, p) {
      PopAlgs(g, stack, par, algs, p);
      if !Kept(algs, p) {
        assert OnTopOf(g, par, stack[0], p);
      }
    }
  }

  /** The users of the instance that is done are all taken up. */
  ghost predicate UsersTaken(g: Graph, stack: seq<Spawn>, secondary: seq<Spawn>, b: Alg) {
    forall c | c in Users(g.us, b) :: Taken(stack, secondary, c)
  }

  /** A user of b that is still on the stack has another spawn of b below it. */
  lemma BelowOnStack(g: Graph, stack: seq<Spawn>, secondary: seq<Spawn>, par: map<Spawn, Spawn>, c: Spawn) returns (q: Spawn)
    requires WellOwned(g) && StackPath(g, stack, par) && AllPassed(g, stack, secondary) && Apart(stack, secondary) && stack != []
    requires c in stack && c in Users(g.us, Inst(g.inst, stack[0]))
    ensures q in stack && q != stack[0] && Inst(g.inst, q) == Inst(g.inst, stack[0])
  {
    hide Passed;
    var j :| 0 <= j < |stack| && stack[j] == c;
    assert Own(g, c) == Inst(g.inst, stack[0]);
    assert Taken(stack, secondary, stack[0]);
    assert j != |stack| - 1;
    q := stack[j + 1];
    assert OnTopOf(g, par, c, q);
  }

  lemma PopLeaders(g: Graph, stack: seq<Spawn>, secondary: seq<Spawn>, algs: map<Spawn, Option<Alg>>, par: map<Spawn, Spawn>)
    requires WellOwned(g) && StackPath(g, stack, par) && AllPassed(g, stack, secondary) && Apart(stack, secondary) && stack != []
    requires AllRightly(g, stack, secondary, algs) && ParentsKept(g, stack, secondary, algs)
    requires LeadersKept(g, secondary, algs) && OneSpawnEach(g)
    requires IsNew(g, Inst(g.inst, stack[0])) || UsersTaken(g, stack, secondary, Inst(g.inst, stack[0]))
    ensures LeadersKept(g, [stack[0]] + secondary, KeepBelow(algs, g.inst, g.alg, stack))
  {
    hide KeepBelow, AlgOf, Leads, Passed, OneSpawnEach, StackPath, WellOwned;
    var algs' := KeepBelow(algs, g.inst, g.alg, stack);
    forall x | x in [stack[0]] + secondary && Leads(g, Inst(g.inst, x)) ensures Kept(algs', x) {
      PopAlgs(g, stack, par, algs, x);
      if x == stack[0] {
        LeaderKept(g, stack, secondary, algs, par);
      } else {
        assert Kept(algs, x);
      }
    }
  }

  lemma LeaderKept(g: Graph, stack: seq<Spawn>, secondary: seq<Spawn>, algs: map<Spawn, Option<Alg>>, par: map<Spawn, Spawn>)
    requires WellOwned(g) && StackPath(g, stack, par) && AllPassed(g, stack, secondary) && Apart(stack, secondary) && stack != []
    requires AllRightly(g, stack, secondary, algs) && ParentsKept(g, stack, secondary, algs)
    requires LeadersKept(g, secondary, algs) && OneSpawnEach(g)
    requires IsNew(g, Inst(g.inst, stack[0])) || UsersTaken(g, stack, secondary, Inst(g.inst, stack[0]))
    requires Leads(g, Inst(g.inst, stack[0]))
    ensures Kept(algs, stack[0])
  {
    hide AlgOf, Leads, Passed, StackPath, WellOwned, OneSpawnEach;
    var s, b := stack[0], Inst(g.inst, stack[0]);
    assert Taken(stack, secondary, s);
    assert KeptRightly(g, algs, s);
    if !IsNew(g, b) {
      var c := LeadsOn(g, b);
      if c in stack {
        var q := BelowOnStack(g, stack, secondary, par, c);
        LeaderAlone(g, stack, secondary, q);
      } else {
        assert Taken(stack, secondary, c) && Kept(algs, c);
        OwnIs(g, b, c);
        assert KeptAbove(g, stack, secondary, algs, b);
        var p :| Taken(stack, secondary, p) && Inst(g.inst, p) == b && Kept(algs, p);
        LeaderAlone(g, stack, secondary, p);
      }
    }
  }

  lemma LeaderAlone(g: Graph, stack: seq<Spawn>, secondary: seq<Spawn>, p: Spawn)
    requires OneSpawnEach(g) && AllPassed(g, stack, secondary) && stack != [] && Taken(stack, secondary, p)
    requires Inst(g.inst, p) == Inst(g.inst, stack[0]) && Leads(g, Inst(g.inst, p)) && !IsNew(g, Inst(g.inst, p))
    ensures p == stack[0]
  {
    hide Passed, Leads;
    assert Taken(stack, secondary, stack[0]);
    assert Passed(g, p) && Passed(g, stack[0]);
  }

  lemma OwnIs(g: Graph, b: Alg, c: Spawn)
    requires WellOwned(g) && c in Users(g.us, b)
    ensures Own(g, c) == b
  {
  }

  lemma PopFirst(g: Graph, stack: seq<Spawn>, secondary: seq<Spawn>, par: map<Spawn, Spawn>)
    requires WellOwned(g) && StackPath(g, stack, par) && AllPassed(g, stack, secondary) && Apart(stack, secondary) && stack != []
    requires UsersFirst(g, secondary) && NoCycle(g)
    requires IsNew(g, Inst(g.inst, stack[0])) || UsersTaken(g, stack, secondary, Inst(g.inst, stack[0]))
    ensures UsersFirst(g, [stack[0]] + secondary)
  {
    hide Passed, StackPath, NoCycle, AllPassed;
    var l := [stack[0]] + secondary;
    forall i, c | 0 <= i < |l| && c in Users(g.us, Inst(g.inst, l[i])) ensures c in l[i + 1..] {
      if i == 0 {
        assert l[1..] == secondary;
        assert Taken(stack, secondary, c);
        if c in stack {
          var q := BelowOnStack(g, stack, secondary, par, c);
          NoRepeat(g, stack, secondary, par, q);
          assert false;
        }
      } else {
        assert l[i] == secondary[i - 1] && l[i + 1..] == secondary[i..];
      }
    }
  }

  lemma PopRest(g: Graph, us: Lists, top: seq<Spawn>, stack: seq<Spawn>, secondary: seq<Spawn>, par: map<Spawn, Spawn>)
    requires AllPassed(g, stack, secondary) && ParOk(g, stack, secondary, par) && stack != []
    requires Exhausted(g, us, secondary) && TopTaken(g, top, stack, secondary)
    requires IsNew(g, Inst(g.inst, stack[0])) || Users(us, Inst(g.inst, stack[0])) == []
    ensures AllPassed(g, stack[1..], [stack[0]] + secondary) && ParOk(g, stack[1..], [stack[0]] + secondary, par)
    ensures Exhausted(g, us, [stack[0]] + secondary) && TopTaken(g, top, stack[1..], [stack[0]] + secondary)
  {
    hide Passed, Taken;
    PopTaken(stack, secondary);
  }

  lemma PopKeeps(g: Graph, us: Lists, top: seq<Spawn>, stack: seq<Spawn>, secondary: seq<Spawn>,
                 algs: map<Spawn, Option<Alg>>, par: map<Spawn, Spawn>)
    requires Keeping(g, us, top, stack, secondary, algs, par) && stack != [] && Apart(stack, secondary)
    requires IsNew(g, Inst(g.inst, stack[0]))
             || (Users(us, Inst(g.inst, stack[0])) == [] && UsersTaken(g, stack, secondary, Inst(g.inst, stack[0])))
    ensures Keeping(g, us, top, stack[1..], [stack[0]] + secondary, KeepBelow(algs, g.inst, g.alg, stack), par)
  {
    hide Passed, StackPath, AllPassed, AllRightly, ParentsKept, ParOk, KeptForChild, Exhausted, TopTaken, LeadersKept, OneParent, UsersFirst, NoCycle, OneSpawnEach, WellOwned, KeepBelow, UsersTaken, Apart;
    PopPath(g, stack, par);
    PopRest(g, us, top, stack, secondary, par);
    PopRightly(g, stack, secondary, algs, par);
    PopParents(g, stack, secondary, algs, par);
    PopChild(g, stack, secondary, algs, par);
    if OneSpawnEach(g) {
      PopLeaders(g, stack, secondary, algs, par);
    }
    if NoCycle(g) {
      PopFirst(g, stack, secondary, par);
    }
  }

  // ---------------------------------------------------------------------------
  // When the walk is over
  // ---------------------------------------------------------------------------

  /** Each instance walked past has had all its users walked past. */
  ghost predicate Through(g: Graph, secondary: seq<Spawn>) {
    && (forall c | c in Users(g.us, g.alg) :: c in secondary)
    && (forall s, c | s in secondary && c in Users(g.us, Inst(g.inst, s)) :: c in secondary)
  }

  /** The walk passes what can be reached, and nothing else. */
  lemma WalkComplete(g: Graph, us: Lists, secondary: seq<Spawn>, algs: map<Spawn, Option<Alg>>, par: map<Spawn, Spawn>)
    requires Keeping(g, us, [], [], secondary, algs, par) && Through(g, secondary)
    ensures forall s :: Passed(g, s) <==> s in secondary
    ensures forall b: Alg :: Reaches(g.us, g.inst, g.alg, b) <==> exists s :: s in secondary && Inst(g.inst, s) == b
  {
    hide Reaches;
    var k := set s | s in secondary :: Inst(g.inst, s);
    assert Closed(g.us, g.inst, k, g.alg);
    forall c | c in k ensures Closed(g.us, g.inst, k, c) {
      var s :| s in secondary && Inst(g.inst, s) == c;
    }
    forall b: Alg ensures Reaches(g.us, g.inst, g.alg, b) <==> exists s :: s in secondary && Inst(g.inst, s) == b {
      if Reaches(g.us, g.inst, g.alg, b) {
        ReachedIsIn(g.us, g.inst, k, g.alg, b);
      }
      if s :| s in secondary && Inst(g.inst, s) == b {
        assert Taken([], secondary, s);
        PassedOn(g, s);
      }
    }
    forall s ensures Passed(g, s) <==> s in secondary {
      if Passed(g, s) && Own(g, s) != g.alg {
        var t :| t in secondary && Inst(g.inst, t) == Own(g, s);
      }
      if s in secondary {
        assert Taken([], secondary, s);
      }
    }
  }

  lemma SameParent(g: Graph, secondary: seq<Spawn>, par: map<Spawn, Spawn>, s: Spawn, t: Spawn)
    requires OneParent(g, par) && ParOk(g, [], secondary, par) && HasChild(par, s) && HasChild(par, t)
    requires Inst(g.inst, s) == Inst(g.inst, t)
    ensures s == t
  {
    var c :| c in par && par[c] == s;
    var d :| d in par && par[d] == t;
    assert Own(g, c) == Own(g, d);
  }

  ghost predicate KeptExactly(g: Graph, algs: map<Spawn, Option<Alg>>) {
    forall s | Passed(g, s) :: Kept(algs, s) <==> Leads(g, Inst(g.inst, s))
  }

  /** The walk keeps exactly what leads to the new algorithm if no instance on the way has two
      spawns in it; and where nothing is built on itself, only then. */
  lemma KeptIffOneSpawnEach(g: Graph, us: Lists, secondary: seq<Spawn>, algs: map<Spawn, Option<Alg>>, par: map<Spawn, Spawn>)
    requires Keeping(g, us, [], [], secondary, algs, par) && Through(g, secondary)
    ensures OneSpawnEach(g) ==> KeptExactly(g, algs)
    ensures NoCycle(g) && KeptExactly(g, algs) ==> OneSpawnEach(g)
  {
    hide Passed, Leads, NoCycle, AlgOf, OneParent, HasChild;
    WalkComplete(g, us, secondary, algs, par);
    forall s | s in secondary ensures Kept(algs, s) ==> Leads(g, Inst(g.inst, s)) {
      assert Taken([], secondary, s) && KeptRightly(g, algs, s);
    }
    if NoCycle(g) && KeptExactly(g, algs) {
      forall s, t | Passed(g, s) && Passed(g, t) && s != t && Inst(g.inst, s) == Inst(g.inst, t)
        ensures IsNew(g, Inst(g.inst, s)) || !Leads(g, Inst(g.inst, s))
      {
        if !IsNew(g, Inst(g.inst, s)) && Leads(g, Inst(g.inst, s)) {
          assert Taken([], secondary, s) && Taken([], secondary, t);
          SameParent(g, secondary, par, s, t);
        }
      }
    }
  }
}
