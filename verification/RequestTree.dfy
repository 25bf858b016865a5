/** The sorted request lists of the I/O schedulers: elv_rb_add, elv_rb_del and neighbours.
    A red-black tree is modelled by its requests in order. */
module RequestTree {
  import opened Common

  datatype Rq = Rq(id: nat, sector: int, write: bool, sync: bool, meta: bool, expires: int)

  ghost predicate Ascending(t: seq<Rq>) {
    forall i, j | 0 <= i < j < |t| :: t[i].sector < t[j].sector
  }

  /** Where a request that starts at sector s belongs. */
  function Rank(t: seq<Rq>, s: int): (r: nat)
    ensures r <= |t|
    ensures forall i | 0 <= i < r :: t[i].sector < s
    ensures r < |t| ==> s <= t[r].sector
  {
    if t == [] || s <= t[0].sector then 0 else 1 + Rank(t[1..], s)
  }

  /** elv_rb_add finds a request that starts at the same sector. */
  function Alias(t: seq<Rq>, s: int): (a: Option<Rq>)
    ensures a.Some? ==> a.value in t && a.value.sector == s
  {
    var r := Rank(t, s);
    if r < |t| && t[r].sector == s then Some(t[r]) else None
  }

  /** elv_rb_add without an alias */
  function Insert(t: seq<Rq>, rq: Rq): seq<Rq> {
    var r := Rank(t, rq.sector);
    t[..r] + [rq] + t[r..]
  }

  function IndexOf<T(==)>(t: seq<T>, x: T): (i: nat)
    requires x in t
    ensures i < |t| && t[i] == x && x !in t[..i]
  {
    if t[0] == x then 0 else 1 + IndexOf(t[1..], x)
  }

  lemma InPrefix<T>(t: seq<T>, i: nat, j: nat)
    requires i < |t| && j <= |t|
    ensures i < j ==> t[i] in t[..j]
  {
    if i < j {
      assert t[..j][i] == t[i];
    }
  }

  lemma IndexIs<T>(t: seq<T>, x: T, i: nat)
    requires i < |t| && t[i] == x && x !in t[..i]
    ensures x in t && IndexOf(t, x) == i
  {
    var j := IndexOf(t, x);
    InPrefix(t, i, j);
    InPrefix(t, j, i);
  }

  /** elv_rb_del, or list_del from a list */
  function Erase<T(==)>(t: seq<T>, x: T): seq<T> {
    if x in t then var i := IndexOf(t, x); t[..i] + t[i+1..] else t
  }

  function Successor(t: seq<Rq>, rq: Rq): (r: Option<Rq>)
    ensures r.Some? ==> r.value in t
  {
    if rq in t && IndexOf(t, rq) + 1 < |t| then Some(t[IndexOf(t, rq) + 1]) else None
  }

  function Predecessor(t: seq<Rq>, rq: Rq): (r: Option<Rq>)
    ensures r.Some? ==> r.value in t
  {
    if rq in t && IndexOf(t, rq) > 0 then Some(t[IndexOf(t, rq) - 1]) else None
  }

  // ---------------------------------------------------------------------------
  // The list stays sorted and holds what was put in
  // ---------------------------------------------------------------------------

  lemma RankSplits(t: seq<Rq>, s: int)
    requires Ascending(t)
    ensures forall i | Rank(t, s) <= i < |t| :: s <= t[i].sector
  {
  }

  lemma AliasFound(t: seq<Rq>, s: int)
    requires Ascending(t)
    ensures Alias(t, s).None? <==> forall r | r in t :: r.sector != s
  {
    RankSplits(t, s);
    if Alias(t, s).None? {
      forall r | r in t ensures r.sector != s {
        var i :| 0 <= i < |t| && t[i] == r;
        assert i > Rank(t, s) ==> t[Rank(t, s)].sector < t[i].sector;
      }
    }
  }

  lemma InsertedAscending(t: seq<Rq>, r: nat, rq: Rq)
    requires Ascending(t) && r <= |t|
    requires (forall i | 0 <= i < r :: t[i].sector < rq.sector) && (forall i | r <= i < |t| :: rq.sector < t[i].sector)
    ensures Ascending(t[..r] + [rq] + t[r..])
  {
    var t' := t[..r] + [rq] + t[r..];
    forall i, j | 0 <= i < j < |t'| ensures t'[i].sector < t'[j].sector {
      assert t'[i] == if i < r then t[i] else if i == r then rq else t[i - 1];
      assert t'[j] == if j < r then t[j] else if j == r then rq else t[j - 1];
    }
  }

  lemma InsertKeeps(t: seq<Rq>, rq: Rq)
    requires Ascending(t) && Alias(t, rq.sector).None?
    ensures Ascending(Insert(t, rq))
  {
    hide Ascending, Rank, Alias;
    AliasFound(t, rq.sector);
    RankSplits(t, rq.sector);
    assert forall i | 0 <= i < |t| :: t[i] in t;
    InsertedAscending(t, Rank(t, rq.sector), rq);
  }

  lemma InsertHas(t: seq<Rq>, rq: Rq)
    ensures multiset(Insert(t, rq)) == multiset(t) + multiset{rq}
    ensures forall x :: x in Insert(t, rq) <==> x in t || x == rq
  {
    var r := Rank(t, rq.sector);
    assert t == t[..r] + t[r..];
    assert forall x :: x in Insert(t, rq) <==> x in multiset(Insert(t, rq));
    assert forall x :: x in t <==> x in multiset(t);
  }

  lemma EraseHas<T>(t: seq<T>, x: T)
    requires x in t
    ensures multiset(Erase(t, x)) == multiset(t) - multiset{x}
    ensures |Erase(t, x)| == |t| - 1
  {
    var i := IndexOf(t, x);
    assert t == t[..i] + [x] + t[i+1..];
  }

  lemma WithoutKeeps(t: seq<Rq>, i: nat)
    requires Ascending(t) && i < |t|
    ensures Ascending(t[..i] + t[i+1..])
  {
    var t' := t[..i] + t[i+1..];
    forall a, b | 0 <= a < b < |t'| ensures t'[a].sector < t'[b].sector {
      var a', b' := if a < i then a else a + 1, if b < i then b else b + 1;
      assert t'[a] == t[a'] && t'[b] == t[b'];
    }
  }

  lemma EraseKeeps(t: seq<Rq>, rq: Rq)
    requires Ascending(t)
    ensures Ascending(Erase(t, rq))
  {
    if rq in t {
      WithoutKeeps(t, IndexOf(t, rq));
    }
  }

  /** Distinct sectors make distinct requests. */
  lemma Distinct(t: seq<Rq>)
    requires Ascending(t)
    ensures forall x :: multiset(t)[x] <= 1
  {
    if t != [] {
      var s := t[..|t| - 1];
      Distinct(s);
      assert t == s + [t[|t| - 1]];
      assert t[|t| - 1] !in s;
    }
  }

  lemma EraseMembers(t: seq<Rq>, rq: Rq)
    requires Ascending(t)
    ensures forall x :: x in Erase(t, rq) <==> x in t && x != rq
  {
    hide Ascending, Erase;
    if rq in t {
      EraseHas(t, rq);
      Distinct(t);
      forall x ensures x in Erase(t, rq) <==> x in t && x != rq {
        assert x in Erase(t, rq) <==> x in multiset(Erase(t, rq));
        assert x in t <==> x in multiset(t);
      }
    } else {
      EraseNothing(t, rq);
    }
  }

  lemma EraseNothing<T>(t: seq<T>, x: T)
    requires x !in t
    ensures Erase(t, x) == t
  {
  }

  // ---------------------------------------------------------------------------
  // Replacing and moving list entries
  // ---------------------------------------------------------------------------

  function Subst(s: seq<Rq>, x: Rq, y: Rq): (r: seq<Rq>)
    ensures |r| == |s|
    ensures forall i | 0 <= i < |s| :: r[i] == if s[i] == x then y else s[i]
  {
    seq(|s|, i requires 0 <= i < |s| => if s[i] == x then y else s[i])
  }

  /** list_move of x behind another element. */
  function MoveBehind(f: seq<Rq>, x: Rq, other: Rq): seq<Rq> {
    var f1 := Erase(f, x);
    if other in f1 then var i := IndexOf(f1, other); f1[..i+1] + [x] + f1[i+1..] else f
  }

  lemma SubstOnce(s: seq<Rq>, i: nat, y: Rq)
    requires i < |s| && s[i] !in s[..i] && s[i] !in s[i+1..]
    ensures Subst(s, s[i], y) == s[..i] + [y] + s[i+1..]
  {
    assert forall j | 0 <= j < i :: s[j] in s[..i];
    assert forall j | i < j < |s| :: s[j] == s[i+1..][j-i-1];
  }

  lemma SubstMultiset(s: seq<Rq>, x: Rq, y: Rq)
    requires multiset(s)[x] == 1
    ensures multiset(Subst(s, x, y)) == multiset(s) - multiset{x} + multiset{y}
  {
    hide Subst;
    assert x in multiset(s);
    var i := IndexOf(s, x);
    assert s == s[..i] + [x] + s[i+1..];
    assert multiset(s) == multiset(s[..i]) + multiset{x} + multiset(s[i+1..]);
    assert x !in multiset(s[i+1..]);
    SubstOnce(s, i, y);
  }

  lemma SubstAscending(s: seq<Rq>, x: Rq, y: Rq)
    requires Ascending(s) && x.sector == y.sector
    ensures Ascending(Subst(s, x, y))
  {
  }

  lemma MoveBehindHas(f: seq<Rq>, x: Rq, other: Rq)
    requires x in f
    ensures multiset(MoveBehind(f, x, other)) == multiset(f)
  {
    hide Erase, IndexOf;
    var f1 := Erase(f, x);
    EraseHas(f, x);
    assert x in multiset(f);
    assert multiset(f1) + multiset{x} == multiset(f);
    if other in f1 {
      var i := IndexOf(f1, other);
      assert f1 == f1[..i+1] + f1[i+1..];
      assert multiset(f1[..i+1] + [x] + f1[i+1..]) == multiset(f1) + multiset{x};
    }
  }

  lemma SubstHas(s: seq<Rq>, x: Rq, y: Rq)
    requires x in s
    ensures y in Subst(s, x, y)
    ensures forall z :: z in Subst(s, x, y) <==> (z in s && z != x) || z == y
  {
    var i := IndexOf(s, x);
    assert Subst(s, x, y)[i] == y;
    forall z | z in s && z != x ensures z in Subst(s, x, y) {
      var j :| 0 <= j < |s| && s[j] == z;
      assert Subst(s, x, y)[j] == z;
    }
    forall z | z in Subst(s, x, y) ensures (z in s && z != x) || z == y {
      var j :| 0 <= j < |s| && Subst(s, x, y)[j] == z;
      assert s[j] in s;
    }
  }

  lemma SubstIndex(f: seq<Rq>, x: Rq, y: Rq)
    requires x in f && y !in f
    ensures y in Subst(f, x, y) && IndexOf(Subst(f, x, y), y) == IndexOf(f, x)
  {
    var i := IndexOf(f, x);
    var f' := Subst(f, x, y);
    assert f'[..i] == f[..i];
    IndexIs(f', y, i);
  }
}
